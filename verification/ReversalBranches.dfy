/** What each handler of the reversal decides, case by case. */
module ReversalBranches {
  import opened Domain
  import opened OrderModel
  import opened ManagerModel
  import opened Legs
  import opened BookGrowth
  import opened ReversalModel

  /** The table read by target: what may lead to each state. */
  lemma MovesByTarget(from: FlowState)
    ensures !CanMove(from, Started) && (CanMove(from, PositionQueried) <==> from == Started)
    ensures CanMove(from, CloseSubmitted) <==> from == PositionQueried
    ensures CanMove(from, CloseFilled) <==> from == CloseSubmitted
    ensures CanMove(from, FlatConfirmed) <==> from == CloseFilled
    ensures CanMove(from, EntrySubmitted) <==> from == FlatConfirmed
    ensures CanMove(from, Completed) <==> from == EntrySubmitted
    ensures CanMove(from, PausedSafe) <==> from !in {Completed, Blocked, PausedSafe}
    ensures CanMove(from, Blocked) <==> from in {Started, PositionQueried, PausedSafe}
  {
  }

  /** Still on its way at the broker: neither over nor in doubt. */
  predicate InFlight(s: Status) {
    !Terminal(s) && s != Unknown
  }

  /** The order a submitted workflow waits for. */
  function Awaited(f: Flow): Option<nat> {
    if f.state == CloseSubmitted then f.closeId else if f.state == EntrySubmitted then f.entryId else None
  }

  ghost predicate Paused(w: World, i: nat, r: Ran)
    requires i < |w.flows|
  {
    && r.alive && r.world.flows == w.flows[i := w.flows[i].(state := PausedSafe)] && r.world.book == w.book
    && (w.flows[i].closeId.Some? ==> w.flows[i].closeId.value !in r.world.tracked)
    && (w.flows[i].entryId.Some? ==> w.flows[i].entryId.value !in r.world.tracked)
  }

  /** A resumed workflow whose leg is submitted: an order in flight is followed and nothing else changes; a missing,
      rejected, cancelled or doubtful one pauses; a filled entry completes; a filled close asks before anything. */
  lemma ResumedLegDecides(w: World, i: nat, a: Answers, left: nat)
    requires i < |w.flows| && Awaited(w.flows[i]).Some? && left >= 1
    ensures var f, order := w.flows[i], Awaited(w.flows[i]).value;
            var r := ResumeOne(w, i, a, left);
            && (order >= |w.book.orders| ==> Paused(w, i, r))
            && (order < |w.book.orders| ==>
                  var status := w.book.orders[order].status;
                  && (InFlight(status) ==> r == Ran(w.(tracked := w.tracked[order := i]), left, true))
                  && (status in {Rejected, Unknown, Cancelled} ==> Paused(w, i, r))
                  && (status == Filled && f.state == EntrySubmitted ==>
                        && r.alive && r.world.flows == w.flows[i := f.(state := Completed)] && r.world.book == w.book
                        && order !in r.world.tracked))
  {
    hide Advance;
  }

  lemma ResumedCloseAsks(w: World, i: nat, a: Answers, left: nat)
    requires i < |w.flows| && w.flows[i].state == CloseSubmitted && w.flows[i].closeId.Some? && left >= 2
    requires w.flows[i].closeId.value < |w.book.orders| && w.book.orders[w.flows[i].closeId.value].status == Filled
    ensures var f, active := w.flows[i], HasActive(w.book.orders, w.flows[i].slot);
            var asked := w.book.trace + [Queried(f.id, a.netAtFlat, active, a.sessionHealthy, a.dataHealthy)];
            var r := ResumeOne(w, i, a, left);
            && asked <= r.world.book.trace
            && (!FlatNow(a, active) ==>
                  r.alive && r.world.flows == w.flows[i := f.(state := PausedSafe)] && r.world.book.trace == asked)
            && (FlatNow(a, active) ==> r.world.flows[i].state in {FlatConfirmed, EntrySubmitted, PausedSafe})
  {
    hide HasActive, SubmitLeg;
    var f, order := w.flows[i], w.flows[i].closeId.value;
    var w1 := w.(tracked := w.tracked[order := i]);
    var w2 := w1.(flows := w.flows[i := f.(state := CloseFilled)]);
    assert ResumeOne(w, i, a, left) == FromCloseFilled(w2, i, a, left - 1);
    var active := HasActive(w.book.orders, f.slot);
    var e := Queried(f.id, a.netAtFlat, active, a.sessionHealthy, a.dataHealthy);
    if FlatNow(a, active) {
      var asked := w2.(book := w.book.(trace := w.book.trace + [e]));
      var flat := asked.(flows := asked.flows[i := f.(state := FlatConfirmed)]);
      assert FromCloseFilled(w2, i, a, left - 1) == FromFlat(flat, i, a, left - 2);
      FlatGoesOn(flat, i, a, left - 2);
    } else {
      assert w2.flows[i := f.(state := PausedSafe)] == w.flows[i := f.(state := PausedSafe)];
    }
  }

  lemma FlatGoesOn(w: World, i: nat, a: Answers, left: nat)
    requires i < |w.flows| && w.flows[i].state == FlatConfirmed
    ensures var r := FromFlat(w, i, a, left);
            w.book.trace <= r.world.book.trace && r.world.flows[i].state in {FlatConfirmed, EntrySubmitted, PausedSafe}
  {
    hide Submit, Leg, Remaining, AfterSubmit;
    if w.flows[i].side.Some? && w.flows[i].startingNet.Some? {
      var r, env := Leg(w.flows[i], false), Env(a.entryNet, a.now, a.raises, left);
      SubmitAsksNothing(w.book, r, env);
      var sent := Submit(w.book, r, env);
      AnswerIsTaken(w.(book := sent.book), i, sent.result, Remaining(w.book, sent.book, left));
    }
  }

  lemma AnswerIsTaken(w: World, i: nat, result: Result, left: nat)
    requires i < |w.flows| && w.flows[i].state == FlatConfirmed
    ensures var r := AfterSubmit(w, i, false, result, left);
            r.world.book == w.book && r.world.flows[i].state in {FlatConfirmed, EntrySubmitted, PausedSafe}
  {
  }

  /** Starting: another signal, a known trigger or an active reversal change nothing; too close to 04:55, or with
      nothing to reverse, the new workflow is stored blocked and sends nothing. */
  lemma StartDecides(w: World, reverse: bool, id: string, trigger: string, slot: Slot, tooClose: bool, a: Answers,
                     left: nat)
    requires left >= 2
    ensures var r := StartReversal(w, reverse, id, trigger, slot, tooClose, a, left);
            var known, busy := FindTrigger(w.flows, trigger).Some?, HasActiveFlow(w.flows, slot);
            && (!reverse || known || busy ==> r.world == w && (r.alive <==> reverse && known))
            && (reverse && !known && !busy && (tooClose || a.netAtStart == 0) ==>
                  && r.alive && |r.world.flows| == |w.flows| + 1 && r.world.flows[..|w.flows|] == w.flows
                  && r.world.flows[|w.flows|].state == Blocked && r.world.flows[|w.flows|].slot == slot
                  && r.world.flows[|w.flows|].id == id && r.world.flows[|w.flows|].trigger == trigger
                  && r.world.book.orders == w.book.orders
                  && r.world.book.trace == w.book.trace + (if tooClose then [] else [Asked(id, 0)]))
  {
    hide FindTrigger, HasActiveFlow, FromQueried;
    assert w.book.trace + [] == w.book.trace;
  }

  /** A followed order: a cancel or a review pauses its workflow, any other news but a fill changes nothing, and
      news of an order nobody follows, or of a paused workflow, never does. */
  lemma NewsDecides(w: World, order: nat, to: Status, a: Answers, left: nat)
    requires left >= 1
    ensures order !in w.tracked || w.tracked[order] >= |w.flows| || w.flows[w.tracked[order]].state == PausedSafe ==>
              && OnTransition(w, order, to, a, left) == Ran(w, left, true)
              && OnManualReview(w, order, left) == Ran(w, left, true)
    ensures to !in {Filled, Cancelled} ==> OnTransition(w, order, to, a, left) == Ran(w, left, true)
    ensures order in w.tracked && w.tracked[order] < |w.flows| && CanMove(w.flows[w.tracked[order]].state, PausedSafe)
        ==>
              && Paused(w, w.tracked[order], OnManualReview(w, order, left))
              && (to == Cancelled ==> Paused(w, w.tracked[order], OnTransition(w, order, to, a, left)))
  {
    hide CloseIsFilled;
  }

  /** A leg the manager refuses pauses the workflow and leaves the book alone; a leg it already knows is linked to
      that order without a call. */
  lemma LegAnswered(w: World, i: nat, isClose: bool, net: int, raises: bool, now: int, left: nat)
    requires i < |w.flows| && w.flows[i].side.Some? && w.flows[i].startingNet.Some? && left >= 1
    requires w.flows[i].state == (if isClose then PositionQueried else FlatConfirmed)
    ensures var f, r := w.flows[i], Leg(w.flows[i], isClose);
            var sent := Submit(w.book, r, Env(net, now, raises, left));
            var ran := SubmitLeg(w, i, isClose, net, raises, now, left);
            && (sent.result in {ActiveWorkflow, ExposureExceeded} ==> Paused(w, i, ran))
            && (sent.result in {BlankReason, NotMxf} ==> ran == Ran(w, left, false))
            && (sent.result.Existing? ==>
                  && ran.alive && ran.world.book == w.book && ran.world.tracked == w.tracked[sent.result.id := i]
                  && ran.world.flows == w.flows[i := if isClose then f.(state := CloseSubmitted,
                      closeId := Some(sent.result.id))
                                                   else f.(state := EntrySubmitted, entryId := Some(sent.result.id))])
  {
    hide Submit, Leg, AfterSubmit, Paused, Remaining;
    var env := Env(net, now, raises, left);
    RefusalsKeepBook(w.book, Leg(w.flows[i], isClose), env);
    var sent := Submit(w.book, Leg(w.flows[i], isClose), env);
    if sent.result in {ActiveWorkflow, ExposureExceeded, BlankReason, NotMxf} || sent.result.Existing? {
      assert w.(book := sent.book) == w;
      NothingSpent(w.book, left);
      AnswerDecides(w, i, isClose, sent.result, left);
    }
  }

  lemma NothingSpent(b: Book, left: nat)
    ensures Remaining(b, b, left) == left
  {
  }

  lemma AnswerDecides(w: World, i: nat, isClose: bool, result: Result, left: nat)
    requires i < |w.flows| && left >= 1 && w.flows[i].state == (if isClose then PositionQueried else FlatConfirmed)
    ensures var f, ran := w.flows[i], AfterSubmit(w, i, isClose, result, left);
            && (result in {ActiveWorkflow, ExposureExceeded} ==> Paused(w, i, ran))
            && (result in {BlankReason, NotMxf} ==> ran == Ran(w, left, false))
            && (result.Existing? || result.Sent? || result.SentUnknown? ==>
                  && ran.alive && ran.world.book == w.book && ran.world.tracked == w.tracked[result.id := i]
                  && ran.world.flows == w.flows[i := if isClose then f.(state := CloseSubmitted,
                      closeId := Some(result.id))
                                                   else f.(state := EntrySubmitted, entryId := Some(result.id))])
  {
  }

  lemma RefusalsKeepBook(b: Book, r: Request, env: Env)
    ensures var s := Submit(b, r, env);
            s.result in {ActiveWorkflow, ExposureExceeded, BlankReason, NotMxf} || s.result.Existing? ==> s.book == b
  {
    SendShape(b, r, env);
    hide Send, SendTrace, Blank, WorstCase;
  }

  /** Followed after a restart: exactly the linked orders of active, unpaused workflows, each for such a workflow. */
  lemma {:induction false} ReloadedFollows(flows: seq<Flow>, order: nat)
    ensures order in Reloaded(flows) <==> exists i :: 0 <= i < |flows| && Linked(flows[i], order)
    ensures order in Reloaded(flows) ==>
              Reloaded(flows)[order] < |flows| && Linked(flows[Reloaded(flows)[order]], order)
  {
    if flows != [] {
      var n := |flows| - 1;
      ReloadedFollows(flows[..n], order);
      if order in Reloaded(flows[..n]) {
        var k := Reloaded(flows[..n])[order];
        assert flows[..n][k] == flows[k];
      }
    }
  }

  predicate Linked(f: Flow, order: nat) {
    f.state !in {Completed, Blocked, PausedSafe} && (f.closeId == Some(order) || f.entryId == Some(order))
  }
}
