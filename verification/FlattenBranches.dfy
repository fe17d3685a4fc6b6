/** What each handler of the flatten decides, case by case. */
module FlattenBranches {
  import opened Domain
  import opened OrderModel
  import opened ManagerModel
  import opened Legs
  import opened BookGrowth
  import opened FlattenModel
  import ReversalBranches

  /** The table read by target: what may lead to each state. */
  lemma MovesByTarget(from: FlattenState)
    ensures !CanMove(from, Started) && (CanMove(from, WaitingActiveOrders) <==> from == Started)
    ensures CanMove(from, PositionQueried) <==> from in {Started, WaitingActiveOrders}
    ensures CanMove(from, AlreadyFlat) <==> from in {Started, WaitingActiveOrders}
    ensures CanMove(from, CloseSubmitted) <==> from == PositionQueried
    ensures CanMove(from, CloseFilled) <==> from == CloseSubmitted
    ensures CanMove(from, Completed) <==> from == CloseFilled
    ensures CanMove(from, PausedSafe) <==> from !in {Completed, AlreadyFlat, PausedSafe}
  {
  }

  ghost predicate Paused(w: World, i: nat, r: Ran)
    requires i < |w.flows|
  {
    && r.alive && r.world.flows == w.flows[i := w.flows[i].(state := PausedSafe)] && r.world.book == w.book
    && (w.flows[i].closeId.Some? ==> w.flows[i].closeId.value !in r.world.tracked)
  }

  /** A resumed workflow whose close is submitted: an order in flight is followed and nothing else changes; a missing,
      rejected, cancelled or doubtful one pauses. */
  lemma ResumedCloseDecides(w: World, i: nat, a: Answers, left: nat)
    requires i < |w.flows| && w.flows[i].state == CloseSubmitted && w.flows[i].closeId.Some? && left >= 1
    ensures var order := w.flows[i].closeId.value;
            var r := ResumeOne(w, i, a, left);
            && (order >= |w.book.orders| ==> Paused(w, i, r))
            && (order < |w.book.orders| ==>
                  var status := w.book.orders[order].status;
                  && (ReversalBranches.InFlight(status) ==> r == Ran(w.(tracked := w.tracked[order := i]), left, true))
                  && (status in {Rejected, Unknown, Cancelled} ==> Paused(w, i, r)))
  {
    hide Advance;
  }

  /** A resumed close that is filled asks the broker first: only a flat, quiet, healthy account completes. */
  lemma ResumedCloseAsks(w: World, i: nat, a: Answers, left: nat)
    requires i < |w.flows| && w.flows[i].state == CloseSubmitted && w.flows[i].closeId.Some? && left >= 2
    requires w.flows[i].closeId.value < |w.book.orders| && w.book.orders[w.flows[i].closeId.value].status == Filled
    ensures var f, active := w.flows[i], HasActive(w.book.orders, w.flows[i].slot);
            var r := ResumeOne(w, i, a, left);
            && r.alive && r.world.book.orders == w.book.orders && f.closeId.value !in r.world.tracked
            && r.world.book.trace == w.book.trace
                 + [Queried(f.id, a.netAtFlat, active, a.sessionHealthy, a.dataHealthy)]
            && r.world.flows == w.flows[i := f.(state := if FlatNow(a, active) then Completed else PausedSafe)]
  {
    hide HasActive;
    var f, order := w.flows[i], w.flows[i].closeId.value;
    var w1 := w.(tracked := w.tracked[order := i]);
    var w2 := w1.(flows := w.flows[i := f.(state := CloseFilled)]);
    assert ResumeOne(w, i, a, left) == FromCloseFilled(w2, i, a, left - 1);
    var g := f.(state := if FlatNow(a, HasActive(w.book.orders, f.slot)) then Completed else PausedSafe);
    assert w2.flows[i := g] == w.flows[i := g];
  }

  /** A followed order: a cancel or a review pauses its workflow, any other news but a fill changes nothing, and
      news of an order nobody follows, or of a paused workflow, never does. */
  lemma NewsDecides(w: World, order: nat, to: Status, a: Answers, left: nat)
    requires left >= 1
    ensures order !in w.tracked || w.tracked[order] >= |w.flows| || w.flows[w.tracked[order]].state == PausedSafe ==>
              && OnTransition(w, order, to, a, left) == Ran(w, left, true)
              && OnManualReview(w, order, left) == Ran(w, left, true)
    ensures to !in {Filled, Cancelled} ==> OnTransition(w, order, to, a, left) == Ran(w, left, true)
    ensures order in w.tracked && w.tracked[order] < |w.flows| && CanMove(w.flows[w.tracked[order]].state, PausedSafe)
        ==>
              && Paused(w, w.tracked[order], OnManualReview(w, order, left))
              && (to == Cancelled ==> Paused(w, w.tracked[order], OnTransition(w, order, to, a, left)))
  {
    hide CloseIsFilled;
  }

  /** With nothing held the workflow ends at once; with something held the answer and its closing side are stored
      before anything is sent. */
  lemma AnswerIsStored(w: World, i: nat, a: Answers, left: nat)
    requires i < |w.flows| && w.flows[i].state in {Started, WaitingActiveOrders} && left == 1
    requires !HasActive(w.book.orders, w.flows[i].slot) && SeriesOf(w.flows[i].slot) in w.lastPrice
    ensures var f, r := w.flows[i], ResumeOne(w, i, a, left);
            && r.world.book == w.book.(trace := w.book.trace + [Asked(f.id, a.net)]) && r.world.tracked == w.tracked
            && r.world.flows == w.flows[i :=
                 if a.net == 0 then f.(state := AlreadyFlat)
                 else f.(state := PositionQueried, startingNet := Some(a.net), side := ClosingSide(a.net))]
  {
    hide HasActive, FromQueried;
    var f := w.flows[i];
    var g := f.(state := PositionQueried, startingNet := Some(a.net), side := ClosingSide(a.net));
    var asked := w.(book := w.book.(trace := w.book.trace + [Asked(f.id, a.net)]), flows := w.flows[i := g]);
    NothingLeft(asked, i, a);
  }

  /** With no effect left nothing more happens, whatever the manager answers. */
  lemma NothingLeft(w: World, i: nat, a: Answers)
    requires i < |w.flows|
    ensures FromQueried(w, i, a, 0).world == w
  {
    hide Submit, Close, AfterSubmit, Remaining;
    var f := w.flows[i];
    NoPause(w, i);
    if f.side.Some? && f.startingNet.Some? && SeriesOf(f.slot) in w.lastPrice {
      var env := Env(a.closeNet, a.now, a.raises, 0);
      SubmitsNothing(w.book, Close(f), env);
      var sent := Submit(w.book, Close(f), env);
      ReversalBranches.NothingSpent(w.book, 0);
      assert w.(book := sent.book) == w;
      NoAnswer(w, i, sent.result);
    }
  }

  lemma NoPause(w: World, i: nat)
    requires i < |w.flows|
    ensures Pause(w, i, 0).world == w
  {
  }

  lemma NoAnswer(w: World, i: nat, result: Result)
    requires i < |w.flows|
    ensures AfterSubmit(w, i, result, 0).world == w
  {
  }

  lemma SubmitsNothing(b: Book, r: Request, env: Env)
    requires env.effects == 0
    ensures Submit(b, r, env).book == b
  {
    hide Blank, FindKey, ActiveFor, WorstCase, HasActive;
  }

  /** Without a known price, or when the manager refuses the close, the workflow pauses and the book stays as it was;
      a close the manager already knows is linked without a call. */
  lemma CloseAnswered(w: World, i: nat, a: Answers, left: nat)
    requires i < |w.flows| && w.flows[i].side.Some? && w.flows[i].startingNet.Some? && left >= 1
    requires w.flows[i].state == PositionQueried
    ensures var f, known := w.flows[i], SeriesOf(w.flows[i].slot) in w.lastPrice;
            var sent := Submit(w.book, Close(f), Env(a.closeNet, a.now, a.raises, left));
            var ran := FromQueried(w, i, a, left);
            && (!known || sent.result in {ActiveWorkflow, ExposureExceeded} ==> Paused(w, i, ran))
            && (known && sent.result in {BlankReason, NotMxf} ==> ran == Ran(w, left, false))
            && (known && sent.result.Existing? ==>
                  && ran.alive && ran.world.book == w.book && ran.world.tracked == w.tracked[sent.result.id := i]
                  && ran.world.flows == w.flows[i := f.(state := CloseSubmitted, closeId := Some(sent.result.id))])
  {
    hide Submit, Close, AfterSubmit, Paused, Remaining;
    var env := Env(a.closeNet, a.now, a.raises, left);
    ReversalBranches.RefusalsKeepBook(w.book, Close(w.flows[i]), env);
    var sent := Submit(w.book, Close(w.flows[i]), env);
    UnpricedPauses(w, i, left);
    if sent.result in {ActiveWorkflow, ExposureExceeded, BlankReason, NotMxf} || sent.result.Existing? {
      assert w.(book := sent.book) == w;
      ReversalBranches.NothingSpent(w.book, left);
      AnswerDecides(w, i, sent.result, left);
    }
  }

  lemma UnpricedPauses(w: World, i: nat, left: nat)
    requires i < |w.flows| && left >= 1 && w.flows[i].state == PositionQueried
    ensures Paused(w, i, Pause(w, i, left))
  {
  }

  lemma AnswerDecides(w: World, i: nat, result: Result, left: nat)
    requires i < |w.flows| && left >= 1 && w.flows[i].state == PositionQueried
    ensures var f, ran := w.flows[i], AfterSubmit(w, i, result, left);
            && (result in {ActiveWorkflow, ExposureExceeded} ==> Paused(w, i, ran))
            && (result in {BlankReason, NotMxf} ==> ran == Ran(w, left, false))
            && (result.Existing? || result.Sent? || result.SentUnknown? ==>
                  && ran.alive && ran.world.book == w.book && ran.world.tracked == w.tracked[result.id := i]
                  && ran.world.flows == w.flows[i := f.(state := CloseSubmitted, closeId := Some(result.id))])
  {
  }

  /** The button: a confirmation the broker no longer agrees with, or a slot already being flattened, raises and
      changes nothing; a token seen before is ignored; otherwise one workflow of that token is stored first. */
  lemma ButtonDecides(w: World, id: string, token: string, slot: Slot, confirmed: Net, actual: Net, a: Answers,
                      left: nat)
    requires left >= 1
    ensures var r := TriggerEmergency(w, id, token, slot, confirmed, actual, a, left);
            var known, busy := FindTrigger(w.flows, Emergency(token)).Some?, HasActiveFlow(w.flows, slot);
            && (confirmed != actual || known || busy ==> r.world == w && (r.alive <==> confirmed == actual && known))
            && (confirmed == actual && !known && !busy ==>
                  && |r.world.flows| == |w.flows| + 1
                      && SameFlow(r.world.flows[|w.flows|], NewFlow(id, Emergency(token), slot))
                  && (forall k | 0 <= k < |w.flows| :: SameFlow(w.flows[k], r.world.flows[k])))
  {
    hide FindTrigger, HasActiveFlow, Advance;
  }

  // ---- memory and restarts ----

  predicate Linked(f: Flow, order: nat) {
    f.state !in {Completed, AlreadyFlat, PausedSafe} && f.closeId == Some(order)
  }

  /** Followed after a restart: exactly the linked orders of moving workflows, each for such a workflow. */
  lemma {:induction false} ReloadedFollows(flows: seq<Flow>, order: nat)
    ensures order in Reloaded(flows) <==> exists i :: 0 <= i < |flows| && Linked(flows[i], order)
    ensures order in Reloaded(flows) ==>
              Reloaded(flows)[order] < |flows| && Linked(flows[Reloaded(flows)[order]], order)
  {
    if flows != [] {
      var n := |flows| - 1;
      ReloadedFollows(flows[..n], order);
      if order in Reloaded(flows[..n]) {
        var k := Reloaded(flows[..n])[order];
        assert flows[..n][k] == flows[k];
      }
    }
  }

  /** The first `n` workflows retired where they can be, and nothing else changed. */
  ghost predicate Retired(w: World, v: World, n: nat) {
    && v == w.(flows := v.flows) && |v.flows| == |w.flows|
    && forall i | 0 <= i < |w.flows| ::
         v.flows[i] == if i < n && Retirable(w.flows[i]) then w.flows[i].(state := AlreadyFlat) else w.flows[i]
  }

  lemma RetiresOne(w: World, v: World, n: nat, left: nat)
    requires n < |w.flows| && Retired(w, v, n) && Retirable(v.flows[n]) && left > 0
    ensures var r := WriteFlow(v, n, v.flows[n].(state := AlreadyFlat), left);
            r.alive && r.left == left - 1 && Retired(w, r.world, n + 1)
  {
  }

  /** In simulation the scheduled workflows that never got past waiting end as already flat, and no other changes. */
  lemma {:induction false} RetiresExactly(w: World, n: nat, left: nat)
    requires n <= |w.flows| && left >= n
    ensures var r := RetireUpTo(w, n, left); r.alive && r.left >= left - n && Retired(w, r.world, n)
  {
    hide WriteFlow;
    if n > 0 {
      RetiresExactly(w, n - 1, left);
      var before := RetireUpTo(w, n - 1, left);
      if Retirable(before.world.flows[n - 1]) {
        RetiresOne(w, before.world, n - 1, before.left);
      }
    }
  }

  /** A new process has seen no clock and no price, and follows the linked orders of the moving workflows; outside
      simulation nothing stored changes. */
  lemma RestartForgets(w: World, s: Settings, left: nat)
    requires left >= |w.flows|
    ensures var r := Restarted(w, s, left);
            && r.alive && r.world.inBand == map[] && r.world.lastPrice == map[] && r.world.book == w.book
            && r.world.tracked == Reloaded(r.world.flows)
            && (!s.simulation ==> r.world.flows == w.flows)
            && (s.simulation ==> forall i | 0 <= i < |r.world.flows| :: !Retirable(r.world.flows[i]))
  {
    RetiresExactly(w.(tracked := map[], inBand := map[], lastPrice := map[]), |w.flows|, left);
    hide RetireUpTo, Reloaded;
  }

  /** A bar's close is the price a flatten of that contract may use from then on, its own and no other's. */
  lemma BarPricesItsSeries(w: World, series: Series, close: real)
    ensures var v := OnBarClosed(w, series, close);
            && series in v.lastPrice && v.lastPrice[series] == close
            && (forall s: Series | s != series ::
                  (s in v.lastPrice <==> s in w.lastPrice) && (s in v.lastPrice ==> v.lastPrice[s] == w.lastPrice[s]))
            && v.flows == w.flows && v.book == w.book && v.tracked == w.tracked && v.inBand == w.inBand
  {
  }

  /** Prices and looks at the clock are kept per instrument and contract, whatever the account. */
  lemma SeriesAreContracts(a: Slot, b: Slot)
    ensures SeriesOf(a) == SeriesOf(b) <==> a.instrument == b.instrument && a.contract == b.contract
  {
  }

  lemma ClockAt(day: int, time: int)
    requires 0 <= time < DAY
    ensures TimeOfDay(day * DAY + time) == time
  {
    var t := day * DAY + time;
    var q, r := t / DAY, t % DAY;
    assert t == q * DAY + r;
    assert (q - day) * DAY == time - r;
    assert q == day;
  }

  /** The band is entered at its first instant and left at its last: a look at 04:55 sharp is inside, one a
      microsecond before and one at the gate's opening are outside, whatever the day. */
  lemma BandEdges(s: Settings, day: int)
    requires 0 < s.eodFlatten < s.entryGate < DAY
    ensures InNoEntryBand(s, day * DAY + s.eodFlatten) && InNoEntryBand(s, day * DAY + s.entryGate - 1)
    ensures !InNoEntryBand(s, day * DAY + s.eodFlatten - 1) && !InNoEntryBand(s, day * DAY + s.entryGate)
  {
    hide TimeOfDay;
    ClockAt(day, s.eodFlatten);
    ClockAt(day, s.entryGate);
    ClockAt(day, s.eodFlatten - 1);
    ClockAt(day, s.entryGate - 1);
    assert day * DAY + s.eodFlatten - 1 == day * DAY + (s.eodFlatten - 1);
    assert day * DAY + s.entryGate - 1 == day * DAY + (s.entryGate - 1);
  }
}
