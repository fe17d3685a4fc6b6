/** A poll that runs to its end leaves no flatten behind: each is over, parked for an operator, waiting for live
    orders to end, or waiting for a submitted close that is followed. */
module FlattenResume {
  import opened Domain
  import opened OrderModel
  import opened ManagerModel
  import opened ManagerProofs
  import opened Legs
  import opened BookGrowth
  import opened FlattenModel
  import opened FlattenProofs

  predicate Settled(w: World, i: nat)
    requires i < |w.flows|
  {
    var f := w.flows[i];
    f.state !in {Completed, AlreadyFlat, PausedSafe} ==>
      || f.state == WaitingActiveOrders
      || (f.state == CloseSubmitted && f.closeId.Some? && f.closeId.value in w.tracked
          && w.tracked[f.closeId.value] == i)
  }

  predicate SameEntry(w: World, v: World, order: nat) {
    (order in v.tracked <==> order in w.tracked) && (order in v.tracked ==> v.tracked[order] == w.tracked[order])
  }

  /** Nothing but workflow `k` changed, and the map only for its own order. */
  ghost predicate OnlyMine(w: World, v: World, k: nat) {
    && |v.flows| == |w.flows| && k < |w.flows|
    && (forall j | 0 <= j < |w.flows| && j != k :: v.flows[j] == w.flows[j])
    && (forall o: nat :: v.flows[k].closeId != Some(o) ==> SameEntry(w, v, o))
  }

  ghost predicate Handled(w: World, k: nat, r: Ran) {
    OnlyMine(w, r.world, k) && (r.alive ==> Settled(r.world, k))
  }

  lemma PauseHandles(w: World, k: nat, left: nat)
    requires k < |w.flows|
    ensures Handled(w, k, Pause(w, k, left)) && Pause(w, k, left).world.flows[k].closeId == w.flows[k].closeId
  {
  }

  lemma AnswerHandles(w: World, k: nat, result: Result, left: nat)
    requires k < |w.flows|
    ensures Handled(w, k, AfterSubmit(w, k, result, left))
  {
  }

  lemma Unchanged(w: World, k: nat)
    requires k < |w.flows|
    ensures OnlyMine(w, w, k)
    ensures forall left: nat :: Handled(w, k, Ran(w, left, false))
  {
  }

  /** A note in the book or one write first, which leave the map alone. */
  lemma AfterWrite(w: World, k: nat, v: World, r: Ran)
    requires k < |w.flows| && |v.flows| == |w.flows|
    requires v.flows[..k] == w.flows[..k] && v.flows[k + 1..] == w.flows[k + 1..]
    requires v.tracked == w.tracked && Handled(v, k, r)
    ensures Handled(w, k, r)
  {
    hide Settled;
    forall j | 0 <= j < |w.flows| && j != k ensures v.flows[j] == w.flows[j] {
      assert j < k ==> v.flows[..k][j] == w.flows[..k][j];
      assert j > k ==> v.flows[k + 1..][j - k - 1] == w.flows[k + 1..][j - k - 1];
    }
  }

  lemma QueriedHandles(w: World, k: nat, a: Answers, left: nat)
    requires k < |w.flows|
    ensures Handled(w, k, FromQueried(w, k, a, left))
  {
    hide Submit, Remaining, Handled, AfterSubmit, Close;
    Unchanged(w, k);
    PauseHandles(w, k, left);
    var f := w.flows[k];
    if f.side.Some? && f.startingNet.Some? && SeriesOf(f.slot) in w.lastPrice {
      var sent := Submit(w.book, Close(f), Env(a.closeNet, a.now, a.raises, left));
      var answered := w.(book := sent.book);
      AnswerHandles(answered, k, sent.result, Remaining(w.book, sent.book, left));
      AfterWrite(w, k, answered, AfterSubmit(answered, k, sent.result, Remaining(w.book, sent.book, left)));
    }
  }

  lemma WritesDown(w: World, noted: World, k: nat, f: Flow, left: nat)
    requires k < |w.flows| && noted.flows == w.flows && noted.tracked == w.tracked
    requires SameFlow(w.flows[k], f) && f.state in {WaitingActiveOrders, AlreadyFlat}
    ensures Handled(w, k, WriteFlow(noted, k, f, left))
  {
  }

  lemma StillWaits(w: World, k: nat, left: nat)
    requires k < |w.flows| && Settled(w, k)
    ensures Handled(w, k, Ran(w, left, true))
  {
  }

  lemma StartedHandles(w: World, k: nat, a: Answers, left: nat)
    requires k < |w.flows| && w.flows[k].state in {Started, WaitingActiveOrders}
    ensures Handled(w, k, FromStarted(w, k, a, left))
  {
    hide FromQueried, Handled, HasActive;
    var f := w.flows[k];
    if HasActive(w.book.orders, f.slot) {
      WritesDown(w, w, k, f.(state := WaitingActiveOrders), left);
      if f.state == WaitingActiveOrders {
        StillWaits(w, k, left);
      }
    } else {
      var asked := w.(book := w.book.(trace := w.book.trace + [Asked(f.id, a.net)]));
      WritesDown(w, asked, k, f.(state := AlreadyFlat), left);
      var g := f.(state := PositionQueried, startingNet := Some(a.net), side := ClosingSide(a.net));
      var r := WriteFlow(asked, k, g, left);
      if r.alive {
        QueriedHandles(r.world, k, a, r.left);
        AfterWrite(w, k, r.world, FromQueried(r.world, k, a, r.left));
      } else {
        Unchanged(asked, k);
        AfterWrite(w, k, asked, r);
      }
    }
  }

  lemma CloseFilledHandles(w: World, k: nat, a: Answers, left: nat)
    requires k < |w.flows|
    ensures var r := FromCloseFilled(w, k, a, left); Handled(w, k, r) && r.world.flows[k].closeId == w.flows[k].closeId
  {
    hide HasActive;
  }

  lemma LinkedHandles(w: World, k: nat, order: nat, a: Answers, left: nat)
    requires k < |w.flows| && w.flows[k].state == CloseSubmitted && w.flows[k].closeId == Some(order)
    ensures Handled(w, k, ResumeLinked(w, k, order, a, left))
  {
    hide FromCloseFilled, Handled, Pause;
    PauseHandles(w, k, left);
    if order < |w.book.orders| {
      var w1 := w.(tracked := w.tracked[order := k]);
      PauseHandles(w1, k, left);
      var r := WriteFlow(w1, k, w.flows[k].(state := CloseFilled), left);
      if r.alive {
        CloseFilledHandles(r.world, k, a, r.left);
        AfterWrite(w1, k, r.world, FromCloseFilled(r.world, k, a, r.left));
        Followed(w, k, order, FromCloseFilled(r.world, k, a, r.left));
      } else {
        Unchanged(w1, k);
        Followed(w, k, order, r);
      }
      Followed(w, k, order, Pause(w1, k, left));
      FollowedWaits(w, k, order, left);
    }
  }

  /** Following its own order first changes nothing for the others. */
  lemma Followed(w: World, k: nat, order: nat, r: Ran)
    requires k < |w.flows| && Handled(w.(tracked := w.tracked[order := k]), k, r)
    requires r.world.flows[k].closeId == Some(order)
    ensures Handled(w, k, r)
  {
    hide Settled;
    var w1 := w.(tracked := w.tracked[order := k]);
    forall o: nat | r.world.flows[k].closeId != Some(o) ensures SameEntry(w, r.world, o) {
      assert SameEntry(w1, r.world, o) && o != order;
    }
  }

  lemma FollowedWaits(w: World, k: nat, order: nat, left: nat)
    requires k < |w.flows| && w.flows[k].state == CloseSubmitted && w.flows[k].closeId == Some(order)
    ensures Handled(w, k, Ran(w.(tracked := w.tracked[order := k]), left, true))
  {
  }

  lemma ResumeHandles(w: World, k: nat, a: Answers, left: nat)
    requires k < |w.flows|
    ensures Handled(w, k, ResumeOne(w, k, a, left))
  {
    hide FromCloseFilled, FromQueried, FromStarted, Handled, ResumeLinked;
    var f := w.flows[k];
    Unchanged(w, k);
    match f.state
    case Started | WaitingActiveOrders => StartedHandles(w, k, a, left);
    case PositionQueried => QueriedHandles(w, k, a, left);
    case CloseSubmitted =>
      if f.closeId.Some? {
        LinkedHandles(w, k, f.closeId.value, a, left);
      }
    case CloseFilled => CloseFilledHandles(w, k, a, left);
    case _ => StillWaits(w, k, left);
  }

  /** Orders of different workflows are different rows. */
  lemma OthersStaySettled(w: World, v: World, k: nat, i: nat, sim: bool)
    requires WorldOk(v, sim) && OnlyMine(w, v, k) && i < |w.flows| && i != k && Settled(w, i)
    ensures Settled(v, i)
  {
    hide BookOk, CallsOk, AskedBefore, ConfirmedFlat, CloseKey;
    var f, g := v.flows[i], v.flows[k];
    assert FlowOk(v.book, f, sim) && FlowOk(v.book, g, sim);
    KeysDiffer(f.id, g.id);
    assert f.id != g.id;
    if f.closeId.Some? {
      assert g.closeId != Some(f.closeId.value);
      assert SameEntry(w, v, f.closeId.value);
    }
  }

  lemma {:induction false} ResumedUpTo(w: World, n: nat, answers: nat -> Answers, left: nat, sim: bool)
    requires WorldOk(w, sim) && n <= |w.flows|
    ensures var r := ResumeUpTo(w, n, answers, left); r.alive ==> forall i | 0 <= i < n :: Settled(r.world, i)
  {
    hide WorldOk, ResumeOne, Settled, OnlyMine;
    if n > 0 {
      ResumedUpTo(w, n - 1, answers, left, sim);
      ResumeAllOk(w, n - 1, answers, left, sim);
      var before := ResumeUpTo(w, n - 1, answers, left);
      if before.alive {
        var k, r := n - 1, ResumeOne(before.world, n - 1, answers(n - 1), before.left);
        ResumeHandles(before.world, k, answers(k), before.left);
        ResumeOneOk(before.world, k, answers(k), before.left, sim);
        forall i | 0 <= i < n && r.alive ensures Settled(r.world, i) {
          if i < k {
            OthersStaySettled(before.world, r.world, k, i, sim);
          }
        }
      }
    }
  }

  /** From any sound world, a poll that is not cut short leaves every flatten over, parked, or waiting: for live
      orders to end, or for its submitted close, which is followed. */
  lemma PollLeavesNoneBehind(w: World, s: Settings, answers: nat -> Answers, left: nat)
    requires WorldOk(w, s.simulation)
    ensures var r := Polled(w, s, answers, left);
            r.alive ==> |r.world.flows| == |w.flows| && forall i | 0 <= i < |w.flows| :: Settled(r.world, i)
  {
    RetireOk(w, s, left);
    var retired := RetireSimulated(w, s, left);
    hide WorldOk, ResumeUpTo, RetireSimulated, Settled;
    var n := |retired.world.flows|;
    ResumedUpTo(retired.world, n, answers, retired.left, s.simulation);
    if retired.alive {
      var r := ResumeUpTo(retired.world, n, answers, retired.left);
      assert Polled(w, s, answers, left) == r;
      assert r.alive ==> forall i | 0 <= i < n :: Settled(r.world, i);
    }
  }
}
