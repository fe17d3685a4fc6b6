/** A reversal that paused, completed or was blocked is finished with the gateway. */
module ReversalHalt {
  import opened Domain
  import opened OrderModel
  import opened ManagerModel
  import ManagerProofs
  import opened Legs
  import opened BookGrowth
  import opened ReversalModel
  import opened ReversalProofs

  predicate Halted(f: Flow) {
    f.state in {PausedSafe, Blocked, Completed}
  }

  /** Between `b` and `c` the gateway is not called with either key of `id`, nor asked on its behalf. */
  ghost predicate Silent(b: Book, c: Book, id: string) {
    b.trace <= c.trace && forall j | |b.trace| <= j < |c.trace| :: NotFor(c.trace[j], id)
  }

  predicate NotFor(e: Effect, id: string) {
    && (e.Called? ==> e.key != CloseKey(id) && e.key != EntryKey(id))
    && (e.Queried? || e.Asked? ==> e.asker != id)
  }

  /** Workflow `i` stays as it is and sends nothing. */
  ghost predicate Untouched(w: World, v: World, i: nat) {
    && i < |w.flows| <= |v.flows| && v.flows[i] == w.flows[i] && Silent(w.book, v.book, w.flows[i].id)
    && forall k | 0 <= k < |w.flows| :: v.flows[k].id == w.flows[k].id
  }

  lemma SilentJoins(b: Book, c: Book, d: Book, id: string)
    requires Silent(b, c, id) && Silent(c, d, id)
    ensures Silent(b, d, id)
  {
    hide NotFor;
    forall j | |b.trace| <= j < |d.trace| ensures NotFor(d.trace[j], id) {
      if j < |c.trace| {
        assert d.trace[j] == c.trace[j];
      }
    }
  }

  lemma UntouchedJoins(w: World, v: World, u: World, i: nat)
    requires Untouched(w, v, i) && Untouched(v, u, i)
    ensures Untouched(w, u, i)
  {
    hide Silent;
    SilentJoins(w.book, v.book, u.book, w.flows[i].id);
  }

  /** Flow `k` is another one. */
  predicate Other(w: World, k: nat, i: nat) {
    k < |w.flows| && i < |w.flows| && k != i && w.flows[k].id != w.flows[i].id
  }

  lemma WriteLeaves(w: World, k: nat, f: Flow, left: nat, i: nat)
    requires Other(w, k, i) && f.id == w.flows[k].id
    ensures Untouched(w, WriteFlow(w, k, f, left).world, i) && Other(WriteFlow(w, k, f, left).world, k, i)
  {
  }

  lemma PauseLeaves(w: World, k: nat, left: nat, i: nat)
    requires Other(w, k, i)
    ensures Untouched(w, Pause(w, k, left).world, i)
  {
  }

  lemma NoteLeaves(w: World, e: Effect, i: nat)
    requires i < |w.flows| && NotFor(e, w.flows[i].id)
    ensures Untouched(w, w.(book := w.book.(trace := w.book.trace + [e])), i)
  {
  }

  lemma SubmitIsSilent(b: Book, r: Request, env: Env, id: string)
    requires r.key != CloseKey(id) && r.key != EntryKey(id)
    ensures Silent(b, Submit(b, r, env).book, id)
  {
    hide CloseKey, EntryKey;
    SendCalls(b, r, env);
    SendShape(b, r, env);
    SubmitAsksNothing(b, r, env);
    hide Send, SendTrace;
  }

  lemma SubmitLegLeaves(w: World, k: nat, isClose: bool, net: int, raises: bool, now: int, left: nat, i: nat)
    requires Other(w, k, i) && w.flows[k].side.Some? && w.flows[k].startingNet.Some?
    ensures Untouched(w, SubmitLeg(w, k, isClose, net, raises, now, left).world, i)
  {
    var r, env := Leg(w.flows[k], isClose), Env(net, now, raises, left);
    KeysDiffer(w.flows[k].id, w.flows[i].id);
    KeysDiffer(w.flows[i].id, w.flows[k].id);
    SubmitIsSilent(w.book, r, env, w.flows[i].id);
    hide Submit, CloseKey, EntryKey, Remaining;
    var s := Submit(w.book, r, env);
    AfterLeaves(w.(book := s.book), k, isClose, s.result, Remaining(w.book, s.book, left), i);
    hide AfterSubmit;
    UntouchedJoins(w, w.(book := s.book), SubmitLeg(w, k, isClose, net, raises, now, left).world, i);
  }

  lemma AfterLeaves(w: World, k: nat, isClose: bool, result: Result, left: nat, i: nat)
    requires Other(w, k, i)
    ensures Untouched(w, AfterSubmit(w, k, isClose, result, left).world, i)
  {
    hide CloseKey, EntryKey;
  }

  lemma FromQueriedLeaves(w: World, k: nat, a: Answers, left: nat, i: nat)
    requires Other(w, k, i)
    ensures Untouched(w, FromQueried(w, k, a, left).world, i)
  {
    hide SubmitLeg;
    if w.flows[k].side.Some? && w.flows[k].startingNet.Some? {
      SubmitLegLeaves(w, k, true, a.closeNet, a.raises, a.now, left, i);
    }
  }

  lemma FromFlatLeaves(w: World, k: nat, a: Answers, left: nat, i: nat)
    requires Other(w, k, i)
    ensures Untouched(w, FromFlat(w, k, a, left).world, i)
  {
    hide SubmitLeg;
    if w.flows[k].side.Some? && w.flows[k].startingNet.Some? {
      SubmitLegLeaves(w, k, false, a.entryNet, a.raises, a.now, left, i);
    }
  }

  lemma FromStartedLeaves(w: World, k: nat, a: Answers, left: nat, i: nat)
    requires Other(w, k, i)
    ensures Untouched(w, FromStarted(w, k, a, left).world, i)
  {
    hide FromQueried, Silent, WriteFlow;
    var f := w.flows[k];
    var asked := w.(book := w.book.(trace := w.book.trace + [Asked(f.id, a.netAtStart)]));
    NoteLeaves(w, Asked(f.id, a.netAtStart), i);
    var g := if a.netAtStart == 0 then f.(state := Blocked)
             else f.(state := PositionQueried, startingNet := Some(a.netAtStart), side := ClosingSide(a.netAtStart));
    WriteLeaves(asked, k, g, left, i);
    var r := WriteFlow(asked, k, g, left);
    UntouchedJoins(w, asked, r.world, i);
    if a.netAtStart != 0 && r.alive {
      FromQueriedLeaves(r.world, k, a, r.left, i);
      UntouchedJoins(w, r.world, FromStarted(w, k, a, left).world, i);
    }
  }

  lemma FromCloseFilledLeaves(w: World, k: nat, a: Answers, left: nat, i: nat)
    requires Other(w, k, i)
    ensures Untouched(w, FromCloseFilled(w, k, a, left).world, i)
  {
    hide FromFlat, Silent, WriteFlow, Pause;
    var f := w.flows[k];
    var e := Queried(f.id, a.netAtFlat, HasActive(w.book.orders, f.slot), a.sessionHealthy, a.dataHealthy);
    var asked := w.(book := w.book.(trace := w.book.trace + [e]));
    NoteLeaves(w, e, i);
    PauseLeaves(asked, k, left, i);
    UntouchedJoins(w, asked, Pause(asked, k, left).world, i);
    WriteLeaves(asked, k, f.(state := FlatConfirmed), left, i);
    var r := WriteFlow(asked, k, f.(state := FlatConfirmed), left);
    UntouchedJoins(w, asked, r.world, i);
    if r.alive {
      FromFlatLeaves(r.world, k, a, r.left, i);
      UntouchedJoins(w, r.world, FromFlat(r.world, k, a, r.left).world, i);
    }
  }

  lemma AdvanceLeaves(w: World, k: nat, a: Answers, left: nat, i: nat)
    requires Other(w, k, i)
    ensures Untouched(w, Advance(w, k, a, left).world, i)
  {
    hide FromStarted, FromQueried, FromCloseFilled, FromFlat;
    FromStartedLeaves(w, k, a, left, i);
    FromQueriedLeaves(w, k, a, left, i);
    FromCloseFilledLeaves(w, k, a, left, i);
    FromFlatLeaves(w, k, a, left, i);
  }

  lemma CloseFilledLeaves(w: World, k: nat, a: Answers, left: nat, i: nat)
    requires Other(w, k, i)
    ensures Untouched(w, CloseIsFilled(w, k, a, left).world, i)
  {
    hide Advance, WriteFlow, Silent;
    WriteLeaves(w, k, w.flows[k].(state := CloseFilled), left, i);
    var r := WriteFlow(w, k, w.flows[k].(state := CloseFilled), left);
    if r.alive {
      AdvanceLeaves(r.world, k, a, r.left, i);
      UntouchedJoins(w, r.world, CloseIsFilled(w, k, a, left).world, i);
    }
  }

  lemma ResumeLeaves(w: World, k: nat, a: Answers, left: nat, i: nat)
    requires Other(w, k, i) || (k == i < |w.flows| && Halted(w.flows[i]))
    ensures Untouched(w, ResumeOne(w, k, a, left).world, i)
  {
    hide CloseIsFilled, Advance, Pause;
    if k != i {
      AdvanceLeaves(w, k, a, left, i);
      PauseLeaves(w, k, left, i);
      var f := w.flows[k];
      if f.state == CloseSubmitted && f.closeId.Some? {
        LinkedLeaves(w, k, f.closeId.value, true, a, left, i);
      } else if f.state == EntrySubmitted && f.entryId.Some? {
        LinkedLeaves(w, k, f.entryId.value, false, a, left, i);
      }
    }
  }

  lemma LinkedLeaves(w: World, k: nat, order: nat, isClose: bool, a: Answers, left: nat, i: nat)
    requires Other(w, k, i)
    ensures Untouched(w, ResumeLinked(w, k, order, isClose, a, left).world, i)
  {
    hide CloseIsFilled, Pause;
    PauseLeaves(w, k, left, i);
    var w1 := w.(tracked := w.tracked[order := k]);
    PauseLeaves(w1, k, left, i);
    CloseFilledLeaves(w1, k, a, left, i);
  }

  lemma {:induction false} ResumeAllLeaves(w: World, n: nat, answers: nat -> Answers, left: nat, i: nat)
    requires i < |w.flows| && n <= |w.flows| && Halted(w.flows[i])
    requires forall k | 0 <= k < |w.flows| && k != i :: w.flows[k].id != w.flows[i].id
    ensures Untouched(w, ResumeUpTo(w, n, answers, left).world, i)
  {
    hide ResumeOne, Silent;
    if n == 0 {
      SilentItself(w.book, w.flows[i].id);
    } else {
      ResumeAllLeaves(w, n - 1, answers, left, i);
      var before := ResumeUpTo(w, n - 1, answers, left);
      if before.alive {
        ResumeLeaves(before.world, n - 1, answers(n - 1), before.left, i);
        UntouchedJoins(w, before.world, ResumeUpTo(w, n, answers, left).world, i);
      }
    }
  }

  lemma SilentItself(b: Book, id: string)
    ensures Silent(b, b, id)
  {
  }

  lemma TransitionLeaves(w: World, order: nat, to: Status, a: Answers, left: nat, i: nat)
    requires i < |w.flows| && Halted(w.flows[i])
    requires forall k | 0 <= k < |w.flows| && k != i :: w.flows[k].id != w.flows[i].id
    ensures Untouched(w, OnTransition(w, order, to, a, left).world, i)
    ensures Untouched(w, OnManualReview(w, order, left).world, i)
  {
    SilentItself(w.book, w.flows[i].id);
    hide CloseIsFilled, Silent;
    if Follows(w, order) && w.tracked[order] != i {
      CloseFilledLeaves(w, w.tracked[order], a, left, i);
      PauseLeaves(w, w.tracked[order], left, i);
    }
  }

  lemma StartLeaves(w: World, reverse: bool, id: string, trigger: string, slot: Slot, tooClose: bool, a: Answers,
                    left: nat, i: nat)
    requires i < |w.flows| && forall k | 0 <= k < |w.flows| :: w.flows[k].id != id
    ensures Untouched(w, StartReversal(w, reverse, id, trigger, slot, tooClose, a, left).world, i)
  {
    SilentItself(w.book, w.flows[i].id);
    hide Advance, Silent;
    if FindTrigger(w.flows, trigger).None? && !HasActiveFlow(w.flows, slot) && left > 0 {
      var f, n := Flow(id, trigger, slot, Started, None, None, None, None), |w.flows|;
      var w1 := w.(flows := w.flows + [f]);
      WriteLeaves(w1, n, f.(state := Blocked), left - 1, i);
      AdvanceLeaves(w1, n, a, left - 1, i);
      UntouchedJoins(w, w1, WriteFlow(w1, n, f.(state := Blocked), left - 1).world, i);
      UntouchedJoins(w, w1, Advance(w1, n, a, left - 1).world, i);
    }
  }

  lemma ElsewhereLeaves(w: World, op: ManagerProofs.Op, i: nat)
    requires WorldOk(w) && Allowed(w, Elsewhere(op)) && i < |w.flows|
    ensures Untouched(w, Next(w, Elsewhere(op)), i)
  {
    hide FlowsOk, Accounted, ManagerProofs.BookOk, CloseKey, EntryKey;
    StepExtends(w.book, op);
    StepAsksNothing(w.book, op);
    hide ManagerProofs.Step, ManagerProofs.Later;
  }

  /** Where a halted workflow may be after a step: where it was, or retired by the operator. */
  predicate HaltedLike(f: Flow, g: Flow) {
    Halted(f) && (g == f || (f.state == PausedSafe && g == f.(state := Blocked)))
  }

  lemma StepLeavesHalted(w: World, s: Step, i: nat)
    requires WorldOk(w) && Allowed(w, s) && i < |w.flows| && Halted(w.flows[i])
    ensures i < |Next(w, s).flows| && HaltedLike(w.flows[i], Next(w, s).flows[i])
        && Silent(w.book, Next(w, s).book, w.flows[i].id)
  {
    assert forall k | 0 <= k < |w.flows| && k != i :: w.flows[k].id != w.flows[i].id by {
      hide ManagerProofs.BookOk, Accounted;
      forall k | 0 <= k < |w.flows| && k != i ensures w.flows[k].id != w.flows[i].id {
        assert if k < i then w.flows[k].id != w.flows[i].id else w.flows[i].id != w.flows[k].id;
      }
    }
    hide WorldOk, StartReversal, OnTransition, OnManualReview, ResumeUpTo, Reloaded, ManagerProofs.Step, CloseKey,
        EntryKey, Silent;
    SilentItself(w.book, w.flows[i].id);
    match s
    case Elsewhere(op) => ElsewhereLeaves(w, op, i);
    case Start(reverse, id, trigger, slot, tooClose, a, left) => StartLeaves(w, reverse, id, trigger, slot, tooClose, a,
        left, i);
    case Transition(order, to, a, left) => TransitionLeaves(w, order, to, a, left, i);
    case Review(order, left) => TransitionLeaves(w, order, Cancelled, Answers(0, 0, false, false, 0, 0, false, 0), left,
        i);
    case Resume(answers, left) => ResumeAllLeaves(w.(tracked := Reloaded(w.flows)), |w.flows|, answers, left, i);
    case Restart | Retire(_) =>
  }

  lemma AllowedPrefix(steps: seq<Step>, n: nat)
    requires AllAllowed(steps) && n <= |steps|
    ensures AllAllowed(steps[..n])
  {
    forall i | 0 <= i < n ensures Allowed(Run(steps[..n][..i]), steps[..n][i]) {
      assert steps[..n][..i] == steps[..i];
      assert Allowed(Run(steps[..i]), steps[i]);
    }
  }

  /** Once a reversal has paused, completed or been blocked, no later step of any run moves it on or calls the
      gateway for it; at most an operator's position sync turns paused into blocked. */
  lemma {:induction false} HaltedStaysHalted(steps: seq<Step>, n: nat, i: nat)
    requires AllAllowed(steps) && n <= |steps| && i < |Run(steps[..n]).flows| && Halted(Run(steps[..n]).flows[i])
    ensures var w, v := Run(steps[..n]), Run(steps);
            i < |v.flows| && HaltedLike(w.flows[i], v.flows[i]) && Silent(w.book, v.book, w.flows[i].id)
    decreases |steps|
  {
    hide Next, WorldOk, Allowed, Silent;
    var w := Run(steps[..n]);
    if n == |steps| {
      assert steps[..n] == steps;
      SilentItself(w.book, w.flows[i].id);
    } else {
      var m := |steps| - 1;
      var earlier := steps[..m];
      assert earlier[..n] == steps[..n];
      AllowedPrefix(steps, m);
      HaltedStaysHalted(earlier, n, i);
      RunKeepsWorld(earlier);
      assert Allowed(Run(steps[..m]), steps[m]);
      StepLeavesHalted(Run(earlier), steps[m], i);
      SilentJoins(w.book, Run(earlier).book, Run(steps).book, w.flows[i].id);
    }
  }
}
