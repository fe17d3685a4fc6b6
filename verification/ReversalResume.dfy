/** A resume that runs to its end leaves no reversal behind: each is over, parked for an operator, or waiting for a
    submitted order that is followed. */
module ReversalResume {
  import opened Domain
  import opened OrderModel
  import opened ManagerModel
  import opened ManagerProofs
  import opened Legs
  import opened BookGrowth
  import opened ReversalModel
  import opened ReversalProofs
  import opened ReversalBranches

  /** Over, parked, or waiting for its own order to report. */
  predicate Settled(w: World, i: nat)
    requires i < |w.flows|
  {
    var f := w.flows[i];
    f.state !in {Completed, Blocked, PausedSafe} ==>
      Awaited(f).Some? && Awaited(f).value in w.tracked && w.tracked[Awaited(f).value] == i
  }

  predicate Owns(f: Flow, order: nat) {
    f.closeId == Some(order) || f.entryId == Some(order)
  }

  predicate SameEntry(w: World, v: World, order: nat) {
    (order in v.tracked <==> order in w.tracked) && (order in v.tracked ==> v.tracked[order] == w.tracked[order])
  }

  /** Nothing but workflow `k` changed, and the map only for orders it owns. */
  ghost predicate OnlyMine(w: World, v: World, k: nat) {
    && |v.flows| == |w.flows| && k < |w.flows|
    && (forall j | 0 <= j < |w.flows| && j != k :: v.flows[j] == w.flows[j])
    && (forall o: nat :: !Owns(v.flows[k], o) ==> SameEntry(w, v, o))
  }

  ghost predicate Handled(w: World, k: nat, r: Ran) {
    OnlyMine(w, r.world, k) && (r.alive ==> Settled(r.world, k))
  }

  lemma PauseHandles(w: World, k: nat, left: nat)
    requires k < |w.flows|
    ensures var r := Pause(w, k, left);
            && Handled(w, k, r) && r.world.flows[k].closeId == w.flows[k].closeId
            && r.world.flows[k].entryId == w.flows[k].entryId
  {
  }

  lemma SubmitHandles(w: World, k: nat, isClose: bool, net: int, raises: bool, now: int, left: nat)
    requires k < |w.flows| && w.flows[k].side.Some? && w.flows[k].startingNet.Some?
    ensures var r := SubmitLeg(w, k, isClose, net, raises, now, left);
            Handled(w, k, r) && (!isClose ==> r.world.flows[k].closeId == w.flows[k].closeId)
  {
    hide Submit, Leg, Remaining;
  }

  lemma QueriedHandles(w: World, k: nat, a: Answers, left: nat)
    requires k < |w.flows|
    ensures Handled(w, k, FromQueried(w, k, a, left))
  {
    hide SubmitLeg, Handled;
    if w.flows[k].side.Some? && w.flows[k].startingNet.Some? {
      SubmitHandles(w, k, true, a.closeNet, a.raises, a.now, left);
    } else {
      Unchanged(w, k);
    }
  }

  lemma Unchanged(w: World, k: nat)
    requires k < |w.flows|
    ensures OnlyMine(w, w, k)
    ensures forall left: nat :: Handled(w, k, Ran(w, left, false))
  {
  }

  lemma FlatHandles(w: World, k: nat, a: Answers, left: nat)
    requires k < |w.flows|
    ensures var r := FromFlat(w, k, a, left); Handled(w, k, r) && r.world.flows[k].closeId == w.flows[k].closeId
  {
    hide SubmitLeg, Handled;
    if w.flows[k].side.Some? && w.flows[k].startingNet.Some? {
      SubmitHandles(w, k, false, a.entryNet, a.raises, a.now, left);
    } else {
      Unchanged(w, k);
    }
  }

  /** One write first, which leaves the map alone. */
  lemma AfterWrite(w: World, k: nat, v: World, r: Ran)
    requires k < |w.flows| && |v.flows| == |w.flows| && v.flows[..k] == w.flows[..k]
        && v.flows[k + 1..] == w.flows[k + 1..]
    requires v.tracked == w.tracked && Handled(v, k, r)
    ensures Handled(w, k, r)
  {
    hide Settled;
    forall j | 0 <= j < |w.flows| && j != k ensures v.flows[j] == w.flows[j] {
      assert j < k ==> v.flows[..k][j] == w.flows[..k][j];
      assert j > k ==> v.flows[k + 1..][j - k - 1] == w.flows[k + 1..][j - k - 1];
    }
  }

  lemma StartedHandles(w: World, k: nat, a: Answers, left: nat)
    requires k < |w.flows|
    ensures Handled(w, k, FromStarted(w, k, a, left))
  {
    hide FromQueried, Handled;
    var f := w.flows[k];
    var asked := w.(book := w.book.(trace := w.book.trace + [Asked(f.id, a.netAtStart)]));
    if a.netAtStart == 0 {
      BlockHandles(w, asked, k, left);
    } else {
      var g := f.(state := PositionQueried, startingNet := Some(a.netAtStart), side := ClosingSide(a.netAtStart));
      var r := WriteFlow(asked, k, g, left);
      if r.alive {
        QueriedHandles(r.world, k, a, r.left);
        AfterWrite(w, k, r.world, FromQueried(r.world, k, a, r.left));
      } else {
        Unchanged(asked, k);
        AfterWrite(w, k, asked, r);
      }
    }
  }

  lemma BlockHandles(w: World, asked: World, k: nat, left: nat)
    requires k < |w.flows| && asked.flows == w.flows && asked.tracked == w.tracked
    ensures var f := w.flows[k];
            var r := WriteFlow(asked, k, f.(state := Blocked), left);
            Handled(w, k, if r.alive then r.(world := r.world.(tracked := Untracked(w, f))) else r)
  {
  }

  lemma CloseFilledHandles(w: World, k: nat, a: Answers, left: nat)
    requires k < |w.flows|
    ensures var r := FromCloseFilled(w, k, a, left); Handled(w, k, r) && r.world.flows[k].closeId == w.flows[k].closeId
  {
    hide FromFlat, Handled, Pause, HasActive;
    var f := w.flows[k];
    var active := HasActive(w.book.orders, f.slot);
    var asked := w.(book := w.book.(trace := w.book.trace
        + [Queried(f.id, a.netAtFlat, active, a.sessionHealthy, a.dataHealthy)]));
    if !FlatNow(a, active) {
      PauseHandles(asked, k, left);
      AfterWrite(w, k, asked, Pause(asked, k, left));
    } else {
      var r := WriteFlow(asked, k, f.(state := FlatConfirmed), left);
      if r.alive {
        FlatHandles(r.world, k, a, r.left);
        AfterWrite(w, k, r.world, FromFlat(r.world, k, a, r.left));
      } else {
        Unchanged(asked, k);
        AfterWrite(w, k, asked, r);
      }
    }
  }

  lemma LinkedHandles(w: World, k: nat, order: nat, isClose: bool, a: Answers, left: nat)
    requires k < |w.flows| && Awaited(w.flows[k]) == Some(order) && isClose == (w.flows[k].state == CloseSubmitted)
    ensures Handled(w, k, ResumeLinked(w, k, order, isClose, a, left))
  {
    hide FromCloseFilled, Handled, Pause, EntryIsFilled;
    PauseHandles(w, k, left);
    if order < |w.book.orders| {
      var w1 := w.(tracked := w.tracked[order := k]);
      PauseHandles(w1, k, left);
      if isClose {
        var r := WriteFlow(w1, k, w.flows[k].(state := CloseFilled), left);
        if r.alive {
          CloseFilledHandles(r.world, k, a, r.left);
          AfterWrite(w1, k, r.world, FromCloseFilled(r.world, k, a, r.left));
          Followed(w, k, order, FromCloseFilled(r.world, k, a, r.left));
        } else {
          Unchanged(w1, k);
          Followed(w, k, order, r);
        }
      } else {
        EntryHandles(w1, k, left);
        Followed(w, k, order, EntryIsFilled(w1, k, left));
      }
      Followed(w, k, order, Pause(w1, k, left));
      FollowedWaits(w, k, order, left);
    }
  }

  lemma EntryHandles(w: World, k: nat, left: nat)
    requires k < |w.flows|
    ensures var r := EntryIsFilled(w, k, left);
            && Handled(w, k, r) && r.world.flows[k].entryId == w.flows[k].entryId
            && r.world.flows[k].closeId == w.flows[k].closeId
  {
  }

  /** Following an order of its own first changes nothing for the others. */
  lemma Followed(w: World, k: nat, order: nat, r: Ran)
    requires k < |w.flows| && Handled(w.(tracked := w.tracked[order := k]), k, r) && Owns(r.world.flows[k], order)
    ensures Handled(w, k, r)
  {
    hide Settled;
    var w1 := w.(tracked := w.tracked[order := k]);
    forall o: nat | !Owns(r.world.flows[k], o) ensures SameEntry(w, r.world, o) {
      assert SameEntry(w1, r.world, o) && o != order;
    }
  }

  lemma FollowedWaits(w: World, k: nat, order: nat, left: nat)
    requires k < |w.flows| && Awaited(w.flows[k]) == Some(order)
    ensures Handled(w, k, Ran(w.(tracked := w.tracked[order := k]), left, true))
  {
  }

  lemma ResumeHandles(w: World, k: nat, a: Answers, left: nat)
    requires k < |w.flows|
    ensures Handled(w, k, ResumeOne(w, k, a, left))
  {
    hide FromCloseFilled, FromQueried, FromFlat, FromStarted, Handled, ResumeLinked;
    var f := w.flows[k];
    Unchanged(w, k);
    if !f.Active() || f.state == PausedSafe {
      StaysSettled(w, k, left);
    } else if Awaited(f).Some? {
      LinkedHandles(w, k, Awaited(f).value, f.state == CloseSubmitted, a, left);
    } else {
      StartedHandles(w, k, a, left);
      QueriedHandles(w, k, a, left);
      CloseFilledHandles(w, k, a, left);
      FlatHandles(w, k, a, left);
    }
  }

  lemma StaysSettled(w: World, k: nat, left: nat)
    requires k < |w.flows| && Settled(w, k)
    ensures Handled(w, k, Ran(w, left, true))
  {
  }

  /** Orders of different workflows are different rows. */
  lemma OthersStaySettled(w: World, v: World, k: nat, i: nat)
    requires WorldOk(v) && OnlyMine(w, v, k) && i < |w.flows| && i != k && Settled(w, i)
    ensures Settled(v, i)
  {
    hide BookOk, CallsOk, AskedBefore, ConfirmedFlat, CloseKey, EntryKey;
    var f, g := v.flows[i], v.flows[k];
    assert FlowOk(v.book, f) && FlowOk(v.book, g);
    KeysDiffer(f.id, g.id);
    KeysDiffer(g.id, f.id);
    assert f.id != g.id;
    if Awaited(f).Some? {
      assert !Owns(g, Awaited(f).value);
      assert SameEntry(w, v, Awaited(f).value);
    }
  }

  lemma {:induction false} ResumedUpTo(w: World, n: nat, answers: nat -> Answers, left: nat)
    requires WorldOk(w) && n <= |w.flows|
    ensures var r := ResumeUpTo(w, n, answers, left); r.alive ==> forall i | 0 <= i < n :: Settled(r.world, i)
  {
    hide WorldOk, ResumeOne, Settled, OnlyMine;
    if n > 0 {
      ResumedUpTo(w, n - 1, answers, left);
      ResumeAllOk(w, n - 1, answers, left);
      var before := ResumeUpTo(w, n - 1, answers, left);
      if before.alive {
        var k, r := n - 1, ResumeOne(before.world, n - 1, answers(n - 1), before.left);
        ResumeHandles(before.world, k, answers(k), before.left);
        ResumeOneOk(before.world, k, answers(k), before.left);
        forall i | 0 <= i < n && r.alive ensures Settled(r.world, i) {
          if i < k {
            OthersStaySettled(before.world, r.world, k, i);
          }
        }
      }
    }
  }

  /** From any sound world, a resume that is not cut short leaves every reversal over, parked, or waiting for a
      submitted leg whose order is followed. */
  lemma ResumeLeavesNoneBehind(w: World, answers: nat -> Answers, left: nat)
    requires WorldOk(w)
    ensures var r := ResumePending(w, answers, left);
            r.alive ==> |r.world.flows| == |w.flows| && forall i | 0 <= i < |w.flows| :: Settled(r.world, i)
  {
    TrackedIsFree(w, Reloaded(w.flows));
    hide WorldOk, ResumeUpTo, Reloaded, Settled;
    var reloaded := w.(tracked := Reloaded(w.flows));
    ResumedUpTo(reloaded, |w.flows|, answers, left);
    assert ResumePending(w, answers, left) == ResumeUpTo(reloaded, |w.flows|, answers, left);
  }
}
