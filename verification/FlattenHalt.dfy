/** A flatten that ended or paused is finished with the gateway, and a paused one keeps its slot. */
module FlattenHalt {
  import opened Domain
  import opened OrderModel
  import opened ManagerModel
  import ManagerProofs
  import opened Legs
  import opened BookGrowth
  import opened FlattenModel
  import opened FlattenProofs

  predicate Halted(f: Flow) {
    f.state in {Completed, AlreadyFlat, PausedSafe}
  }

  predicate NotFor(e: Effect, id: string) {
    (e.Called? ==> e.key != CloseKey(id)) && (e.Queried? || e.Asked? ==> e.asker != id)
  }

  /** Between `b` and `c` the gateway is neither called nor asked for `id`. */
  ghost predicate Silent(b: Book, c: Book, id: string) {
    b.trace <= c.trace && forall j | |b.trace| <= j < |c.trace| :: NotFor(c.trace[j], id)
  }

  /** Workflow `i` stays as it is and sends nothing; while it is active no workflow is added for its slot. */
  ghost predicate Untouched(w: World, v: World, i: nat) {
    && i < |w.flows| <= |v.flows| && v.flows[i] == w.flows[i] && Silent(w.book, v.book, w.flows[i].id)
    && (forall k | 0 <= k < |w.flows| :: SameFlow(w.flows[k], v.flows[k]))
    && (Unfinished(w.flows[i]) ==> forall k | |w.flows| <= k < |v.flows| :: v.flows[k].slot != w.flows[i].slot)
  }

  lemma SilentItself(b: Book, id: string)
    ensures Silent(b, b, id)
  {
  }

  lemma SilentJoins(b: Book, c: Book, d: Book, id: string)
    requires Silent(b, c, id) && Silent(c, d, id)
    ensures Silent(b, d, id)
  {
    hide NotFor;
    forall j | |b.trace| <= j < |d.trace| ensures NotFor(d.trace[j], id) {
      if j < |c.trace| {
        assert d.trace[j] == c.trace[j];
      }
    }
  }

  lemma UntouchedJoins(w: World, v: World, u: World, i: nat)
    requires Untouched(w, v, i) && Untouched(v, u, i)
    ensures Untouched(w, u, i)
  {
    hide Silent;
    SilentJoins(w.book, v.book, u.book, w.flows[i].id);
  }

  lemma UntouchedItself(w: World, i: nat)
    requires i < |w.flows|
    ensures Untouched(w, w, i)
  {
    SilentItself(w.book, w.flows[i].id);
    hide Silent;
  }

  lemma NewFlowIs(id: string, trigger: Trigger, slot: Slot)
    ensures NewFlow(id, trigger, slot).id == id && NewFlow(id, trigger, slot).slot == slot
  {
  }

  ghost predicate DistinctIds(w: World) {
    forall i, k | 0 <= i < |w.flows| && 0 <= k < |w.flows| && i != k :: w.flows[i].id != w.flows[k].id
  }

  lemma StillApart(w: World, v: World, k: nat, i: nat)
    requires Untouched(w, v, i) && DistinctIds(w) && k < |w.flows| == |v.flows|
    ensures v.flows[i] == w.flows[i] && (k != i ==> Other(v, k, i))
  {
    hide Silent;
    assert SameFlow(w.flows[k], v.flows[k]);
  }

  predicate Other(w: World, k: nat, i: nat) {
    k < |w.flows| && i < |w.flows| && k != i && w.flows[k].id != w.flows[i].id
  }

  lemma WriteLeaves(w: World, k: nat, f: Flow, left: nat, i: nat)
    requires Other(w, k, i) && SameFlow(w.flows[k], f)
    ensures Untouched(w, WriteFlow(w, k, f, left).world, i) && Other(WriteFlow(w, k, f, left).world, k, i)
    ensures Untouched(w, WriteAndUntrack(w, k, f, left).world, i)
  {
  }

  lemma NoteLeaves(w: World, e: Effect, i: nat)
    requires i < |w.flows| && NotFor(e, w.flows[i].id)
    ensures Untouched(w, w.(book := w.book.(trace := w.book.trace + [e])), i)
  {
  }

  lemma SubmitIsSilent(b: Book, r: Request, env: Env, id: string)
    requires r.key != CloseKey(id)
    ensures Silent(b, Submit(b, r, env).book, id)
  {
    hide CloseKey;
    SendCalls(b, r, env);
    SendShape(b, r, env);
    SubmitAsksNothing(b, r, env);
    hide Send, SendTrace;
  }

  lemma AfterLeaves(w: World, k: nat, result: Result, left: nat, i: nat)
    requires Other(w, k, i)
    ensures Untouched(w, AfterSubmit(w, k, result, left).world, i)
  {
    hide CloseKey;
  }

  lemma FromQueriedLeaves(w: World, k: nat, a: Answers, left: nat, i: nat)
    requires Other(w, k, i)
    ensures Untouched(w, FromQueried(w, k, a, left).world, i)
  {
    SilentItself(w.book, w.flows[i].id);
    var f := w.flows[k];
    WriteLeaves(w, k, f.(state := PausedSafe), left, i);
    if f.side.Some? && f.startingNet.Some? && SeriesOf(f.slot) in w.lastPrice {
      var env := Env(a.closeNet, a.now, a.raises, left);
      KeysDiffer(f.id, w.flows[i].id);
      SubmitIsSilent(w.book, Close(f), env, w.flows[i].id);
      hide Submit, CloseKey, Remaining;
      var s := Submit(w.book, Close(f), env);
      AfterLeaves(w.(book := s.book), k, s.result, Remaining(w.book, s.book, left), i);
      hide AfterSubmit;
      UntouchedJoins(w, w.(book := s.book), FromQueried(w, k, a, left).world, i);
    }
  }

  lemma FromStartedLeaves(w: World, k: nat, a: Answers, left: nat, i: nat)
    requires Other(w, k, i)
    ensures Untouched(w, FromStarted(w, k, a, left).world, i)
  {
    SilentItself(w.book, w.flows[i].id);
    hide FromQueried, Silent, WriteFlow, HasActive;
    var f := w.flows[k];
    WriteLeaves(w, k, f.(state := WaitingActiveOrders), left, i);
    if !HasActive(w.book.orders, f.slot) {
      var asked := w.(book := w.book.(trace := w.book.trace + [Asked(f.id, a.net)]));
      NoteLeaves(w, Asked(f.id, a.net), i);
      var g := if a.net == 0 then f.(state := AlreadyFlat)
               else f.(state := PositionQueried, startingNet := Some(a.net), side := ClosingSide(a.net));
      WriteLeaves(asked, k, g, left, i);
      var r := WriteFlow(asked, k, g, left);
      UntouchedJoins(w, asked, r.world, i);
      if a.net != 0 && r.alive {
        FromQueriedLeaves(r.world, k, a, r.left, i);
        UntouchedJoins(w, r.world, FromStarted(w, k, a, left).world, i);
      }
    }
  }

  lemma FromCloseFilledLeaves(w: World, k: nat, a: Answers, left: nat, i: nat)
    requires Other(w, k, i)
    ensures Untouched(w, FromCloseFilled(w, k, a, left).world, i)
  {
    hide Silent, WriteAndUntrack;
    var f := w.flows[k];
    var e := Queried(f.id, a.netAtFlat, HasActive(w.book.orders, f.slot), a.sessionHealthy, a.dataHealthy);
    var asked := w.(book := w.book.(trace := w.book.trace + [e]));
    NoteLeaves(w, e, i);
    WriteLeaves(asked, k, f.(state := PausedSafe), left, i);
    WriteLeaves(asked, k, f.(state := Completed), left, i);
    UntouchedJoins(w, asked, FromCloseFilled(w, k, a, left).world, i);
  }

  lemma AdvanceLeaves(w: World, k: nat, a: Answers, left: nat, i: nat)
    requires Other(w, k, i)
    ensures Untouched(w, Advance(w, k, a, left).world, i)
  {
    SilentItself(w.book, w.flows[i].id);
    hide FromStarted, FromQueried, FromCloseFilled, Silent;
    FromStartedLeaves(w, k, a, left, i);
    FromQueriedLeaves(w, k, a, left, i);
    FromCloseFilledLeaves(w, k, a, left, i);
  }

  lemma CloseFilledLeaves(w: World, k: nat, a: Answers, left: nat, i: nat)
    requires Other(w, k, i)
    ensures Untouched(w, CloseIsFilled(w, k, a, left).world, i)
  {
    hide Advance, WriteFlow, Silent;
    WriteLeaves(w, k, w.flows[k].(state := CloseFilled), left, i);
    var r := WriteFlow(w, k, w.flows[k].(state := CloseFilled), left);
    if r.alive {
      AdvanceLeaves(r.world, k, a, r.left, i);
      UntouchedJoins(w, r.world, CloseIsFilled(w, k, a, left).world, i);
    }
  }

  lemma ResumeLeaves(w: World, k: nat, a: Answers, left: nat, i: nat)
    requires Other(w, k, i) || (k == i < |w.flows| && Halted(w.flows[i]))
    ensures Untouched(w, ResumeOne(w, k, a, left).world, i)
  {
    hide ResumeLinked, Advance, Untouched;
    UntouchedItself(w, i);
    if k != i {
      AdvanceLeaves(w, k, a, left, i);
      if w.flows[k].closeId.Some? {
        LinkedLeaves(w, k, w.flows[k].closeId.value, a, left, i);
      }
    }
  }

  lemma LinkedLeaves(w: World, k: nat, order: nat, a: Answers, left: nat, i: nat)
    requires Other(w, k, i)
    ensures Untouched(w, ResumeLinked(w, k, order, a, left).world, i)
  {
    hide CloseIsFilled, WriteAndUntrack, Silent;
    var w1 := w.(tracked := w.tracked[order := k]);
    UntouchedItself(w1, i);
    WriteLeaves(w, k, w.flows[k].(state := PausedSafe), left, i);
    WriteLeaves(w1, k, w.flows[k].(state := PausedSafe), left, i);
    CloseFilledLeaves(w1, k, a, left, i);
  }

  lemma {:induction false} ResumeAllLeaves(w: World, n: nat, answers: nat -> Answers, left: nat, i: nat)
    requires DistinctIds(w) && i < |w.flows| && n <= |w.flows| && Halted(w.flows[i])
    ensures Untouched(w, ResumeUpTo(w, n, answers, left).world, i)
  {
    hide ResumeOne, Untouched, DistinctIds;
    UntouchedItself(w, i);
    if n > 0 {
      ResumeAllLeaves(w, n - 1, answers, left, i);
      var before := ResumeUpTo(w, n - 1, answers, left);
      StillApart(w, before.world, n - 1, i);
      if before.alive {
        ResumeLeaves(before.world, n - 1, answers(n - 1), before.left, i);
        UntouchedJoins(w, before.world, ResumeUpTo(w, n, answers, left).world, i);
      }
    }
  }

  lemma {:induction false} RetireAllLeaves(w: World, n: nat, left: nat, i: nat)
    requires DistinctIds(w) && i < |w.flows| && n <= |w.flows| && Halted(w.flows[i])
    ensures Untouched(w, RetireUpTo(w, n, left).world, i)
  {
    hide WriteFlow, Untouched, DistinctIds;
    UntouchedItself(w, i);
    if n > 0 {
      RetireAllLeaves(w, n - 1, left, i);
      var before := RetireUpTo(w, n - 1, left);
      StillApart(w, before.world, n - 1, i);
      if before.alive && Retirable(before.world.flows[n - 1]) {
        WriteLeaves(before.world, n - 1, before.world.flows[n - 1].(state := AlreadyFlat), before.left, i);
        UntouchedJoins(w, before.world, RetireUpTo(w, n, left).world, i);
      }
    }
  }

  /** A workflow is begun only for a slot without an active one. */
  lemma BeginLeaves(w: World, id: string, trigger: Trigger, slot: Slot, a: Answers, left: nat, i: nat)
    requires i < |w.flows| && forall k | 0 <= k < |w.flows| :: w.flows[k].id != id
    ensures Untouched(w, Begin(w, id, trigger, slot, a, left).world, i)
  {
    hide Advance, FindTrigger, HasActiveFlow, Untouched, NewFlow;
    UntouchedItself(w, i);
    if FindTrigger(w.flows, trigger).None? && !HasActiveFlow(w.flows, slot) && left > 0 {
      var n, w1 := |w.flows|, w.(flows := w.flows + [NewFlow(id, trigger, slot)]);
      NewFlowIs(id, trigger, slot);
      AppendLeaves(w, NewFlow(id, trigger, slot), i);
      AdvanceLeaves(w1, n, a, left - 1, i);
      UntouchedJoins(w, w1, Advance(w1, n, a, left - 1).world, i);
    }
  }

  lemma AppendLeaves(w: World, f: Flow, i: nat)
    requires i < |w.flows| && !HasActiveFlow(w.flows, f.slot)
    ensures Untouched(w, w.(flows := w.flows + [f]), i)
  {
    SilentItself(w.book, w.flows[i].id);
    hide Silent;
  }

  lemma TriggerLeaves(w: World, s: Settings, selected: Option<Slot>, id: string, now: int, healthy: bool, a: Answers,
                      left: nat, i: nat)
    requires i < |w.flows| && forall k | 0 <= k < |w.flows| :: w.flows[k].id != id
    ensures Untouched(w, MaybeTrigger(w, s, selected, id, now, healthy, a, left).world, i)
  {
    SilentItself(w.book, w.flows[i].id);
    hide Begin, Silent, InNoEntryBand;
    if selected.Some? {
      var series := SeriesOf(selected.value);
      var looked := w.(inBand := w.inBand[series := InNoEntryBand(s, now)]);
      BeginLeaves(looked, id, Scheduled(series, DateOf(now)), selected.value, a, left, i);
    }
  }

  lemma PolledLeaves(w: World, s: Settings, answers: nat -> Answers, left: nat, i: nat)
    requires DistinctIds(w) && i < |w.flows| && Halted(w.flows[i])
    ensures Untouched(w, Polled(w, s, answers, left).world, i)
  {
    SilentItself(w.book, w.flows[i].id);
    RetireAllLeaves(w, |w.flows|, left, i);
    hide RetireUpTo, ResumeUpTo, Silent;
    var retired := RetireSimulated(w, s, left);
    if retired.alive {
      ResumeAllLeaves(retired.world, |retired.world.flows|, answers, retired.left, i);
      UntouchedJoins(w, retired.world, Polled(w, s, answers, left).world, i);
    }
  }

  /** A poll that adds nothing, then a look that may add a workflow. */
  lemma TickLeaves(w: World, s: Settings, t: Tick, left: nat, i: nat)
    requires DistinctIds(w) && i < |w.flows| && Halted(w.flows[i]) && FreshAtTrigger(w, s, t, left)
    ensures Untouched(w, OnClockTick(w, s, t, left).world, i)
  {
    PolledLeaves(w, s, t.answers, left, i);
    var p := Polled(w, s, t.answers, left);
    hide Polled, MaybeTrigger, Silent;
    if p.alive && !s.simulation {
      TriggerLeaves(p.world, s, t.selected, t.id, t.now, t.healthy, t.a, p.left, i);
      var v := OnClockTick(w, s, t, left).world;
      SilentJoins(w.book, p.world.book, v.book, w.flows[i].id);
    }
  }

  lemma TransitionLeaves(w: World, order: nat, to: Status, a: Answers, left: nat, i: nat)
    requires DistinctIds(w) && i < |w.flows| && Halted(w.flows[i])
    ensures Untouched(w, OnTransition(w, order, to, a, left).world, i)
    ensures Untouched(w, OnManualReview(w, order, left).world, i)
  {
    SilentItself(w.book, w.flows[i].id);
    hide Advance, Silent;
    if Follows(w, order) && w.tracked[order] != i {
      CloseFilledLeaves(w, w.tracked[order], a, left, i);
      WriteLeaves(w, w.tracked[order], w.flows[w.tracked[order]].(state := PausedSafe), left, i);
    }
  }

  lemma RestartLeaves(w: World, s: Settings, left: nat, i: nat)
    requires DistinctIds(w) && i < |w.flows| && Halted(w.flows[i])
    ensures Untouched(w, Restarted(w, s, left).world, i)
  {
    var blank := w.(tracked := map[], inBand := map[], lastPrice := map[]);
    SilentItself(w.book, w.flows[i].id);
    RetireAllLeaves(blank, |w.flows|, left, i);
    hide RetireUpTo, Silent, Reloaded;
  }

  lemma ElsewhereLeaves(w: World, s: Settings, op: ManagerProofs.Op, i: nat)
    requires WorldOk(w, s.simulation) && Allowed(w, s, Elsewhere(op)) && i < |w.flows|
    ensures Untouched(w, Next(w, s, Elsewhere(op)), i)
  {
    hide FlowsOk, Accounted, TrackedOk, ManagerProofs.BookOk, CloseKey;
    StepExtends(w.book, op);
    StepAsksNothing(w.book, op);
    hide ManagerProofs.Step, ManagerProofs.Later;
  }

  lemma OkIsDistinct(w: World, sim: bool)
    requires WorldOk(w, sim)
    ensures DistinctIds(w)
  {
    hide ManagerProofs.BookOk, Accounted, TrackedOk;
    forall j, k | 0 <= j < |w.flows| && 0 <= k < |w.flows| && j != k ensures w.flows[j].id != w.flows[k].id {
      assert if k < j then w.flows[k].id != w.flows[j].id else w.flows[j].id != w.flows[k].id;
    }
  }

  lemma StepLeavesHalted(w: World, s: Settings, step: Step, i: nat)
    requires WorldOk(w, s.simulation) && Allowed(w, s, step) && i < |w.flows| && Halted(w.flows[i])
    ensures Untouched(w, Next(w, s, step), i)
  {
    OkIsDistinct(w, s.simulation);
    SilentItself(w.book, w.flows[i].id);
    hide WorldOk, OnClockTick, Begin, OnTransition, OnManualReview, Restarted, Reloaded, ManagerProofs.Step, Silent,
        FreshAtTrigger, FindTrigger;
    match step
    case Elsewhere(op) => ElsewhereLeaves(w, s, op, i);
    case Clock(t, left) => TickLeaves(w, s, t, left, i);
    case SessionReady(t, left) => TickLeaves(w.(tracked := Reloaded(w.flows)), s, t, left, i);
    case Button(id, token, slot, confirmed, actual, a, left) => BeginLeaves(w, id, Emergency(token), slot, a, left, i);
    case Transition(order, to, a, left) => TransitionLeaves(w, order, to, a, left, i);
    case Review(order, left) => TransitionLeaves(w, order, Cancelled, Answers(0, 0, false, false, 0, false, 0), left,
        i);
    case BarClosed(_, _) =>
    case Restart(left) => RestartLeaves(w, s, left, i);
  }

  /** Once a flatten is paused or over, no later step of any run moves it on or calls the gateway for it; and
      while it is paused no flatten, scheduled or by button, is ever started for its account and contract. */
  lemma {:induction false} HaltedStaysHalted(s: Settings, steps: seq<Step>, n: nat, i: nat)
    requires AllAllowed(s, steps) && n <= |steps| && i < |Run(s, steps[..n]).flows|
        && Halted(Run(s, steps[..n]).flows[i])
    ensures Untouched(Run(s, steps[..n]), Run(s, steps), i)
    decreases |steps|
  {
    hide Next, WorldOk, Allowed;
    var w := Run(s, steps[..n]);
    if n == |steps| {
      assert steps[..n] == steps;
      SilentItself(w.book, w.flows[i].id);
    } else {
      hide Untouched;
      var m := |steps| - 1;
      var earlier := steps[..m];
      assert earlier[..n] == steps[..n];
      AllowedPrefix(s, steps, m);
      HaltedStaysHalted(s, earlier, n, i);
      RunKeepsWorld(s, earlier);
      assert Allowed(Run(s, steps[..m]), s, steps[m]);
      StepLeavesHalted(Run(s, earlier), s, steps[m], i);
      UntouchedJoins(w, Run(s, earlier), Run(s, steps), i);
    }
  }

  lemma AllowedPrefix(s: Settings, steps: seq<Step>, n: nat)
    requires AllAllowed(s, steps) && n <= |steps|
    ensures AllAllowed(s, steps[..n])
  {
    forall i | 0 <= i < n ensures Allowed(Run(s, steps[..n][..i]), s, steps[..n][i]) {
      assert steps[..n][..i] == steps[..i];
      assert Allowed(Run(s, steps[..i]), s, steps[i]);
    }
  }
}
