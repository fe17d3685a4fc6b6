/** Safety of the flatten workflow over every run of ticks, buttons, order events, crashes and restarts. */
module FlattenProofs {
  import opened Domain
  import opened OrderModel
  import opened ManagerModel
  import opened ManagerProofs
  import opened Legs
  import opened BookGrowth
  import opened FlattenModel

  // ---- the invariant ----

  ghost predicate Sized(f: Flow) {
    f.startingNet.Some? && f.startingNet.value != 0 && f.side == ClosingSide(f.startingNet.value)
  }

  ghost predicate FlowOk(b: Book, f: Flow, simulation: bool) {
    && (f.closeId.Some? ==> f.closeId.value < |b.orders| && b.orders[f.closeId.value].key == CloseKey(f.id))
    && (f.state in {Started, WaitingActiveOrders, AlreadyFlat} ==> f.startingNet.None?)
    && (f.state in {Started, WaitingActiveOrders, AlreadyFlat, PositionQueried} ==> f.closeId.None?)
    && (f.startingNet.Some? ==> AskedBefore(b, f.id, f.startingNet.value, |b.trace|))
    && (f.state in {PositionQueried, CloseSubmitted, CloseFilled, Completed} ==> Sized(f))
    && (f.state in {CloseSubmitted, CloseFilled, Completed} ==> f.closeId.Some?)
    && (f.state in {CloseFilled, Completed} ==> b.orders[f.closeId.value].status == Filled)
    && (f.state == Completed ==> ConfirmedFlat(b, f.id, |b.trace|))
    && (f.state == AlreadyFlat ==> AskedBefore(b, f.id, 0, |b.trace|) || (simulation && f.trigger.Scheduled?))
  }

  /** A close call brings the position the broker had answered to zero. */
  ghost predicate CloseCallOk(b: Book, f: Flow, j: int)
    requires 0 <= j < |b.trace| && b.trace[j].Called?
  {
    && Sized(f) && b.trace[j].slot == f.slot && b.trace[j].lots > 0
    && f.startingNet.value + Signed(b.trace[j].side, b.trace[j].lots) == 0
    && AskedBefore(b, f.id, f.startingNet.value, j)
  }

  ghost predicate CallsOk(b: Book, f: Flow) {
    forall j | 0 <= j < |b.trace| && b.trace[j].Called? && b.trace[j].key == CloseKey(f.id) :: CloseCallOk(b, f, j)
  }

  /** A paused workflow still holds its slot. */
  predicate Unfinished(f: Flow) {
    f.state != Completed && f.state != AlreadyFlat
  }

  ghost predicate FlowsOk(flows: seq<Flow>) {
    forall i, j | 0 <= i < j < |flows| ::
      && flows[i].id != flows[j].id && flows[i].trigger != flows[j].trigger
      && (Unfinished(flows[i]) && Unfinished(flows[j]) ==> flows[i].slot != flows[j].slot)
  }

  /** An order is followed for the workflow whose close it is. */
  ghost predicate TrackedOk(flows: seq<Flow>, tracked: map<nat, nat>) {
    forall o | o in tracked :: tracked[o] < |flows| && flows[tracked[o]].closeId == Some(o)
  }

  ghost predicate Accounted(b: Book, flows: seq<Flow>, simulation: bool) {
    forall i | 0 <= i < |flows| :: FlowOk(b, flows[i], simulation) && CallsOk(b, flows[i])
  }

  ghost predicate WorldOk(w: World, simulation: bool) {
    BookOk(w.book) && FlowsOk(w.flows) && TrackedOk(w.flows, w.tracked) && Accounted(w.book, w.flows, simulation)
  }

  // ---- growth of the book ----

  lemma FlowStays(b: Book, c: Book, f: Flow, sim: bool)
    requires Extends(b, c) && FlowOk(b, f, sim)
    ensures FlowOk(c, f, sim)
  {
    if f.startingNet.Some? {
      AskedStays(b, c, f.id, f.startingNet.value, |b.trace|);
    }
    if AskedBefore(b, f.id, 0, |b.trace|) {
      AskedStays(b, c, f.id, 0, |b.trace|);
    }
    if f.state == Completed {
      ConfirmedStays(b, c, f.id, |b.trace|);
    }
    hide BookOk, ConfirmedFlat, AskedBefore;
  }

  lemma OldCallStays(b: Book, c: Book, f: Flow, j: nat)
    requires Extends(b, c) && CallsOk(b, f) && j < |b.trace| && c.trace[j].Called? && c.trace[j].key == CloseKey(f.id)
    ensures CloseCallOk(c, f, j)
  {
    assert c.trace[j] == b.trace[j];
    hide BookOk, AskedBefore, Later;
    AskedStays(b, c, f.id, f.startingNet.value, j);
  }

  lemma CallsStay(b: Book, c: Book, f: Flow)
    requires Extends(b, c) && CallsOk(b, f)
    requires forall j | |b.trace| <= j < |c.trace| && c.trace[j].Called? :: c.trace[j].key != CloseKey(f.id)
    ensures CallsOk(c, f)
  {
    forall j | 0 <= j < |c.trace| && c.trace[j].Called? && c.trace[j].key == CloseKey(f.id)
        ensures CloseCallOk(c, f, j) {
      OldCallStays(b, c, f, j);
    }
    hide CloseCallOk, Extends, CloseKey;
  }

  /** A book that grew only by calls allowed to workflow `i` keeps the world. */
  lemma GrownBookOk(w: World, c: Book, i: nat, sim: bool)
    requires WorldOk(w, sim) && Extends(w.book, c) && i < |w.flows| && CallsOk(c, w.flows[i])
    requires forall j | |w.book.trace| <= j < |c.trace| && c.trace[j].Called? ::
        c.trace[j].key == CloseKey(w.flows[i].id)
    ensures WorldOk(w.(book := c), sim)
  {
    hide BookOk, Later, FlowOk, CallsOk, CloseKey, TrackedOk;
    forall k | 0 <= k < |w.flows| ensures FlowOk(c, w.flows[k], sim) && CallsOk(c, w.flows[k]) {
      FlowStays(w.book, c, w.flows[k], sim);
      if k != i {
        assert w.flows[k].id != w.flows[i].id;
        KeysDiffer(w.flows[k].id, w.flows[i].id);
        CallsStay(w.book, c, w.flows[k]);
      }
    }
  }

  lemma QuietBookOk(w: World, c: Book, sim: bool)
    requires WorldOk(w, sim) && Extends(w.book, c)
    requires forall j, i | |w.book.trace| <= j < |c.trace| && c.trace[j].Called? && 0 <= i < |w.flows| ::
               c.trace[j].key != CloseKey(w.flows[i].id)
    ensures WorldOk(w.(book := c), sim)
  {
    hide BookOk, Later, FlowOk, CallsOk, CloseKey, TrackedOk;
    forall k | 0 <= k < |w.flows| ensures FlowOk(c, w.flows[k], sim) && CallsOk(c, w.flows[k]) {
      FlowStays(w.book, c, w.flows[k], sim);
      CallsStay(w.book, c, w.flows[k]);
    }
  }

  lemma NotedOk(w: World, e: Effect, sim: bool)
    requires WorldOk(w, sim) && !e.Called? && !e.Wrote?
    ensures WorldOk(w.(book := w.book.(trace := w.book.trace + [e])), sim)
  {
    NoteExtends(w.book, e);
    hide BookOk, FlowsOk, Accounted, Extends, TrackedOk;
    QuietBookOk(w, w.book.(trace := w.book.trace + [e]), sim);
  }

  // ---- writing one workflow ----

  lemma FlowIsOk(w: World, i: nat, sim: bool)
    requires WorldOk(w, sim) && i < |w.flows|
    ensures FlowOk(w.book, w.flows[i], sim) && CallsOk(w.book, w.flows[i])
  {
    hide FlowOk, CallsOk, BookOk, FlowsOk, TrackedOk;
  }

  ghost predicate SameIdentity(f: Flow, g: Flow) {
    g.id == f.id && g.trigger == f.trigger && g.slot == f.slot && (f.closeId.Some? ==> g.closeId == f.closeId)
  }

  lemma WriteFlowOk(w: World, i: nat, f: Flow, left: nat, sim: bool)
    requires WorldOk(w, sim) && i < |w.flows| && FlowOk(w.book, f, sim) && CallsOk(w.book, f)
        && SameIdentity(w.flows[i], f)
    ensures WorldOk(WriteFlow(w, i, f, left).world, sim)
    ensures WriteFlow(w, i, f, left).alive ==> WriteFlow(w, i, f, left).world == w.(flows := w.flows[i := f])
  {
    hide FlowOk, CallsOk, BookOk;
  }

  lemma TrackOk(w: World, tracked: map<nat, nat>, sim: bool)
    requires WorldOk(w, sim) && TrackedOk(w.flows, tracked)
    ensures WorldOk(w.(tracked := tracked), sim)
  {
    hide FlowsOk, Accounted, BookOk, TrackedOk;
  }

  lemma UntrackOk(w: World, f: Flow, sim: bool)
    requires WorldOk(w, sim)
    ensures TrackedOk(w.flows, Untracked(w.tracked, f))
  {
    hide FlowsOk, Accounted, BookOk;
  }

  lemma WriteAndUntrackOk(w: World, i: nat, f: Flow, left: nat, sim: bool)
    requires WorldOk(w, sim) && i < |w.flows| && FlowOk(w.book, f, sim) && CallsOk(w.book, f)
        && SameIdentity(w.flows[i], f)
    ensures WorldOk(WriteAndUntrack(w, i, f, left).world, sim)
  {
    WriteFlowOk(w, i, f, left, sim);
    hide WorldOk, FlowOk, CallsOk, WriteFlow, TrackedOk;
    var r := WriteFlow(w, i, f, left);
    if r.alive {
      UntrackOk(r.world, f, sim);
      TrackOk(r.world, Untracked(w.tracked, f), sim);
    }
  }

  /** Calls depend on the recorded position only. */
  lemma CallsKeep(b: Book, f: Flow, g: Flow)
    requires CallsOk(b, f) && g.id == f.id && g.slot == f.slot && g.startingNet == f.startingNet && g.side == f.side
    ensures CallsOk(b, g)
  {
    hide AskedBefore, CloseKey;
  }

  lemma PauseOk(w: World, i: nat, left: nat, sim: bool)
    requires WorldOk(w, sim) && i < |w.flows|
    ensures WorldOk(Pause(w, i, left).world, sim)
  {
    hide WorldOk, CallsOk, WriteAndUntrack, AskedBefore, ConfirmedFlat, CloseKey;
    var f := w.flows[i].(state := PausedSafe);
    FlowIsOk(w, i, sim);
    CallsKeep(w.book, w.flows[i], f);
    WriteAndUntrackOk(w, i, f, left, sim);
  }

  // ---- submitting the close ----

  lemma CloseCallsOk(b: Book, c: Book, f: Flow, sim: bool)
    requires Extends(b, c) && FlowOk(b, f, sim) && CallsOk(b, f) && Sized(f)
    requires var r := Close(f); OnlyCalls(b, c, r.key, r.slot, r.side, r.lots)
    ensures CallsOk(c, f)
  {
    AskedStays(b, c, f.id, f.startingNet.value, |b.trace|);
    hide ConfirmedFlat, AskedBefore, CloseKey, BookOk, Later, FlowOk;
    forall j | 0 <= j < |c.trace| && c.trace[j].Called? && c.trace[j].key == CloseKey(f.id)
        ensures CloseCallOk(c, f, j) {
      if j < |b.trace| {
        OldCallStays(b, c, f, j);
      }
    }
    hide CloseCallOk;
  }

  lemma LinkedFlowOk(b: Book, f: Flow, id: nat, sim: bool)
    requires FlowOk(b, f, sim) && CallsOk(b, f) && f.state == PositionQueried
    requires id < |b.orders| && b.orders[id].key == CloseKey(f.id)
    ensures var g := f.(state := CloseSubmitted, closeId := Some(id));
            FlowOk(b, g, sim) && CallsOk(b, g) && SameIdentity(f, g)
  {
    CallsKeep(b, f, f.(state := CloseSubmitted, closeId := Some(id)));
    hide CallsOk, ConfirmedFlat, AskedBefore, CloseKey;
  }

  lemma LinkOk(w: World, i: nat, id: nat, left: nat, sim: bool)
    requires WorldOk(w, sim) && i < |w.flows| && w.flows[i].state == PositionQueried
    requires id < |w.book.orders| && w.book.orders[id].key == CloseKey(w.flows[i].id)
    ensures WorldOk(Link(w, i, id, left).world, sim)
  {
    var f := w.flows[i].(state := CloseSubmitted, closeId := Some(id));
    FlowIsOk(w, i, sim);
    LinkedFlowOk(w.book, w.flows[i], id, sim);
    WriteFlowOk(w, i, f, left, sim);
    var r := WriteFlow(w, i, f, left);
    if r.alive {
      assert TrackedOk(r.world.flows, r.world.tracked);
      hide WorldOk, FlowOk, CallsOk;
      TrackOk(r.world, r.world.tracked[id := i], sim);
    }
  }

  /** The manager's answer to the close leaves the world sound, and a row it returns is the close's own. */
  lemma CloseOk(w: World, i: nat, env: Env, sim: bool)
    requires WorldOk(w, sim) && i < |w.flows| && w.flows[i].state == PositionQueried
    ensures w.flows[i].side.Some? && w.flows[i].startingNet.Some?
    ensures var s := Submit(w.book, Close(w.flows[i]), env);
            && WorldOk(w.(book := s.book), sim)
            && (s.result.Existing? || s.result.Sent? || s.result.SentUnknown? ==>
                  s.result.id < |s.book.orders| && s.book.orders[s.result.id].key == CloseKey(w.flows[i].id))
  {
    var f := w.flows[i];
    FlowIsOk(w, i, sim);
    assert Sized(f);
    var r := Close(f);
    assert BookOk(w.book) && 1 <= r.lots <= MAX_LOTS;
    hide WorldOk, CallsOk, BookOk, FlowOk, Sized, Submit, CloseKey, Extends;
    SubmitExtends(w.book, r, env);
    var c := Submit(w.book, r, env).book;
    CloseCallsOk(w.book, c, f, sim);
    GrownBookOk(w, c, i, sim);
  }

  lemma FromQueriedOk(w: World, i: nat, a: Answers, left: nat, sim: bool)
    requires WorldOk(w, sim) && i < |w.flows| && w.flows[i].state == PositionQueried
    ensures WorldOk(FromQueried(w, i, a, left).world, sim)
  {
    hide WorldOk, Submit, Link, Pause, CloseKey, Remaining;
    PauseOk(w, i, left, sim);
    var env := Env(a.closeNet, a.now, a.raises, left);
    CloseOk(w, i, env, sim);
    var s := Submit(w.book, Close(w.flows[i]), env);
    var w1, left1 := w.(book := s.book), Remaining(w.book, s.book, left);
    PauseOk(w1, i, left1, sim);
    if s.result.Existing? || s.result.Sent? || s.result.SentUnknown? {
      LinkOk(w1, i, s.result.id, left1, sim);
    }
  }

  // ---- advancing ----

  /** Before the answer is recorded nothing was sent, so a workflow may still go any of three ways. */
  lemma EarlyOk(b: Book, f: Flow, g: Flow, sim: bool)
    requires FlowOk(b, f, sim) && CallsOk(b, f) && f.state in {Started, WaitingActiveOrders}
    requires || g == f.(state := WaitingActiveOrders)
             || (g == f.(state := AlreadyFlat) && (AskedBefore(b, f.id, 0, |b.trace|) || (sim && f.trigger.Scheduled?)))
             || (exists net: Net :: net != 0 && AskedBefore(b, f.id, net, |b.trace|)
                   && g == f.(state := PositionQueried, startingNet := Some(net), side := ClosingSide(net)))
    ensures FlowOk(b, g, sim) && CallsOk(b, g) && SameIdentity(f, g)
  {
    hide AskedBefore, ConfirmedFlat, CloseKey;
    assert forall j | 0 <= j < |b.trace| && b.trace[j].Called? :: b.trace[j].key != CloseKey(f.id);
  }

  lemma FromStartedOk(w: World, i: nat, a: Answers, left: nat, sim: bool)
    requires WorldOk(w, sim) && i < |w.flows| && w.flows[i].state in {Started, WaitingActiveOrders}
    ensures WorldOk(FromStarted(w, i, a, left).world, sim)
  {
    hide WorldOk, FlowOk, CallsOk, FromQueried, AskedBefore, SameIdentity;
    var f := w.flows[i];
    if HasActive(w.book.orders, f.slot) {
      FlowIsOk(w, i, sim);
      EarlyOk(w.book, f, f.(state := WaitingActiveOrders), sim);
      WriteFlowOk(w, i, f.(state := WaitingActiveOrders), left, sim);
    } else {
      var asked := w.(book := w.book.(trace := w.book.trace + [Asked(f.id, a.net)]));
      NotedOk(w, Asked(f.id, a.net), sim);
      FlowIsOk(asked, i, sim);
      AnswerIsAsked(w.book, f.id, a.net);
      var g := if a.net == 0 then f.(state := AlreadyFlat)
               else f.(state := PositionQueried, startingNet := Some(a.net), side := ClosingSide(a.net));
      EarlyOk(asked.book, f, g, sim);
      WriteFlowOk(asked, i, g, left, sim);
      var r := WriteFlow(asked, i, g, left);
      if a.net != 0 && r.alive {
        FromQueriedOk(r.world, i, a, r.left, sim);
      }
    }
  }

  lemma CompletedOk(b: Book, f: Flow, sim: bool)
    requires FlowOk(b, f, sim) && CallsOk(b, f) && f.state == CloseFilled && ConfirmedFlat(b, f.id, |b.trace|)
    ensures FlowOk(b, f.(state := Completed), sim) && CallsOk(b, f.(state := Completed))
        && SameIdentity(f, f.(state := Completed))
  {
    CallsKeep(b, f, f.(state := Completed));
    hide ConfirmedFlat, AskedBefore, CallsOk;
  }

  lemma CloseLegIsFilled(w: World, i: nat, sim: bool)
    requires WorldOk(w, sim) && i < |w.flows| && w.flows[i].state == CloseFilled
    ensures var f := w.flows[i];
            && BookOk(w.book) && f.closeId.Some? && f.closeId.value < |w.book.orders|
            && w.book.orders[f.closeId.value].status == Filled && w.book.orders[f.closeId.value].key == CloseKey(f.id)
  {
    FlowIsOk(w, i, sim);
    hide BookOk, CallsOk, ConfirmedFlat, AskedBefore, FlowsOk, Accounted, CloseKey, TrackedOk;
  }

  lemma FromCloseFilledOk(w: World, i: nat, a: Answers, left: nat, sim: bool)
    requires WorldOk(w, sim) && i < |w.flows| && w.flows[i].state == CloseFilled
    ensures WorldOk(FromCloseFilled(w, i, a, left).world, sim)
  {
    hide WorldOk, FlowOk, CallsOk, ConfirmedFlat, BookOk, CloseKey, Pause, WriteAndUntrack, SameIdentity;
    var f := w.flows[i];
    var active := HasActive(w.book.orders, f.slot);
    var e := Queried(f.id, a.netAtFlat, active, a.sessionHealthy, a.dataHealthy);
    var asked := w.(book := w.book.(trace := w.book.trace + [e]));
    NotedOk(w, e, sim);
    if FlatNow(a, active) {
      CloseLegIsFilled(w, i, sim);
      QueryConfirms(w.book, f.id, f.closeId.value);
      FlowIsOk(asked, i, sim);
      CompletedOk(asked.book, f, sim);
      WriteAndUntrackOk(asked, i, f.(state := Completed), left, sim);
    } else {
      PauseOk(asked, i, left, sim);
    }
  }

  lemma AdvanceOk(w: World, i: nat, a: Answers, left: nat, sim: bool)
    requires WorldOk(w, sim) && i < |w.flows|
    ensures WorldOk(Advance(w, i, a, left).world, sim)
  {
    hide WorldOk, FromStarted, FromQueried, FromCloseFilled;
    match w.flows[i].state
    case Started | WaitingActiveOrders => FromStartedOk(w, i, a, left, sim);
    case PositionQueried => FromQueriedOk(w, i, a, left, sim);
    case CloseFilled => FromCloseFilledOk(w, i, a, left, sim);
    case _ =>
  }

  // ---- events and recovery ----

  lemma FilledOk(b: Book, f: Flow, sim: bool)
    requires FlowOk(b, f, sim) && CallsOk(b, f) && f.state == CloseSubmitted
        && b.orders[f.closeId.value].status == Filled
    ensures FlowOk(b, f.(state := CloseFilled), sim) && CallsOk(b, f.(state := CloseFilled))
        && SameIdentity(f, f.(state := CloseFilled))
  {
    CallsKeep(b, f, f.(state := CloseFilled));
    hide ConfirmedFlat, AskedBefore, CallsOk;
  }

  /** In any state but `CloseSubmitted` the move is illegal and nothing changes. */
  lemma CloseIsFilledOk(w: World, i: nat, a: Answers, left: nat, sim: bool)
    requires WorldOk(w, sim) && i < |w.flows| && w.flows[i].closeId.Some?
    requires w.flows[i].closeId.value < |w.book.orders| && w.book.orders[w.flows[i].closeId.value].status == Filled
    ensures WorldOk(CloseIsFilled(w, i, a, left).world, sim)
  {
    hide WorldOk, CallsOk, Advance, AskedBefore, ConfirmedFlat, CloseKey;
    var r := WriteFlow(w, i, w.flows[i].(state := CloseFilled), left);
    if w.flows[i].state == CloseSubmitted {
      FlowIsOk(w, i, sim);
      FilledOk(w.book, w.flows[i], sim);
      WriteFlowOk(w, i, w.flows[i].(state := CloseFilled), left, sim);
      if r.alive {
        AdvanceOk(r.world, i, a, r.left, sim);
      }
    }
  }

  /** A fill event follows the write it announces. */
  predicate Truthful(w: World, order: nat, to: Status) {
    to == Filled ==> order < |w.book.orders| && w.book.orders[order].status == Filled
  }

  lemma TrackedIsClose(w: World, order: nat, sim: bool)
    requires WorldOk(w, sim) && order in w.tracked
    ensures w.tracked[order] < |w.flows| && w.flows[w.tracked[order]].closeId == Some(order)
  {
    hide BookOk, FlowsOk, Accounted;
  }

  lemma OnTransitionOk(w: World, order: nat, to: Status, a: Answers, left: nat, sim: bool)
    requires WorldOk(w, sim) && Truthful(w, order, to)
    ensures WorldOk(OnTransition(w, order, to, a, left).world, sim)
  {
    hide WorldOk, CloseIsFilled, Pause;
    if Follows(w, order) {
      TrackedIsClose(w, order, sim);
      PauseOk(w, w.tracked[order], left, sim);
      if to == Filled {
        CloseIsFilledOk(w, w.tracked[order], a, left, sim);
      }
    }
  }

  lemma ReviewOk(w: World, order: nat, left: nat, sim: bool)
    requires WorldOk(w, sim)
    ensures WorldOk(OnManualReview(w, order, left).world, sim)
  {
    hide WorldOk, Pause;
    if Follows(w, order) {
      PauseOk(w, w.tracked[order], left, sim);
    }
  }

  lemma {:induction false} ReloadedIsOk(flows: seq<Flow>)
    ensures TrackedOk(flows, Reloaded(flows))
  {
    if flows != [] {
      ReloadedIsOk(flows[..|flows| - 1]);
    }
  }

  lemma RetrackOk(w: World, i: nat, order: nat, sim: bool)
    requires WorldOk(w, sim) && i < |w.flows| && w.flows[i].closeId == Some(order)
    ensures WorldOk(w.(tracked := w.tracked[order := i]), sim)
  {
    hide BookOk, FlowsOk, Accounted;
  }

  lemma ResumeOneOk(w: World, i: nat, a: Answers, left: nat, sim: bool)
    requires WorldOk(w, sim) && i < |w.flows|
    ensures WorldOk(ResumeOne(w, i, a, left).world, sim)
  {
    hide WorldOk, CloseIsFilled, Pause, Advance;
    var f := w.flows[i];
    AdvanceOk(w, i, a, left, sim);
    PauseOk(w, i, left, sim);
    if f.state == CloseSubmitted && f.closeId.Some? && f.closeId.value < |w.book.orders| {
      RetrackOk(w, i, f.closeId.value, sim);
      var w1 := w.(tracked := w.tracked[f.closeId.value := i]);
      PauseOk(w1, i, left, sim);
      if w.book.orders[f.closeId.value].status == Filled {
        CloseIsFilledOk(w1, i, a, left, sim);
      }
    }
  }

  lemma {:induction false} ResumeAllOk(w: World, n: nat, answers: nat -> Answers, left: nat, sim: bool)
    requires WorldOk(w, sim) && n <= |w.flows|
    ensures WorldOk(ResumeUpTo(w, n, answers, left).world, sim)
  {
    hide WorldOk, ResumeOne;
    if n > 0 {
      ResumeAllOk(w, n - 1, answers, left, sim);
      var before := ResumeUpTo(w, n - 1, answers, left);
      if before.alive {
        ResumeOneOk(before.world, n - 1, answers(n - 1), before.left, sim);
      }
    }
  }

  lemma {:induction false} RetireAllOk(w: World, n: nat, left: nat)
    requires WorldOk(w, true) && n <= |w.flows|
    ensures WorldOk(RetireUpTo(w, n, left).world, true)
  {
    hide WorldOk, WriteFlow, FlowOk, CallsOk, SameIdentity, AskedBefore;
    if n > 0 {
      RetireAllOk(w, n - 1, left);
      var before := RetireUpTo(w, n - 1, left);
      var f := before.world.flows[n - 1];
      if before.alive && Retirable(f) {
        FlowIsOk(before.world, n - 1, true);
        EarlyOk(before.world.book, f, f.(state := AlreadyFlat), true);
        WriteFlowOk(before.world, n - 1, f.(state := AlreadyFlat), before.left, true);
      }
    }
  }

  // ---- triggers ----

  ghost predicate Fresh(w: World, id: string) {
    && (forall i | 0 <= i < |w.flows| :: w.flows[i].id != id)
    && (forall i | 0 <= i < |w.book.orders| :: w.book.orders[i].key != CloseKey(id))
  }

  lemma UnsentOk(b: Book, f: Flow, sim: bool)
    requires BookOk(b) && f == NewFlow(f.id, f.trigger, f.slot)
    requires forall i | 0 <= i < |b.orders| :: b.orders[i].key != CloseKey(f.id)
    ensures FlowOk(b, f, sim) && CallsOk(b, f)
  {
    assert forall j | 0 <= j < |b.trace| && b.trace[j].Called? :: CallMatches(b.orders, b.trace[j]);
    hide BookOk, AskedBefore, ConfirmedFlat, CloseKey;
  }

  lemma AppendedOk(flows: seq<Flow>, f: Flow, tracked: map<nat, nat>)
    requires FlowsOk(flows) && TrackedOk(flows, tracked)
    requires forall i | 0 <= i < |flows| :: flows[i].id != f.id && flows[i].trigger != f.trigger
    requires !HasActiveFlow(flows, f.slot)
    ensures FlowsOk(flows + [f]) && TrackedOk(flows + [f], tracked)
  {
    assert forall i | 0 <= i < |flows| :: (flows + [f])[i] == flows[i];
  }

  lemma NewFlowOk(w: World, f: Flow, sim: bool)
    requires WorldOk(w, sim) && Fresh(w, f.id) && f == NewFlow(f.id, f.trigger, f.slot)
    requires FindTrigger(w.flows, f.trigger).None? && !HasActiveFlow(w.flows, f.slot)
    ensures WorldOk(w.(flows := w.flows + [f]), sim)
  {
    UnsentOk(w.book, f, sim);
    AppendedOk(w.flows, f, w.tracked);
    hide BookOk, FlowOk, CallsOk, TrackedOk, FlowsOk, CloseKey, NewFlow;
    assert forall i | 0 <= i < |w.flows| :: (w.flows + [f])[i] == w.flows[i];
  }

  lemma BeginOk(w: World, id: string, trigger: Trigger, slot: Slot, a: Answers, left: nat, sim: bool)
    requires WorldOk(w, sim) && Fresh(w, id)
    ensures WorldOk(Begin(w, id, trigger, slot, a, left).world, sim)
  {
    hide WorldOk, Advance, Fresh;
    if FindTrigger(w.flows, trigger).None? && !HasActiveFlow(w.flows, slot) && left > 0 {
      NewFlowOk(w, NewFlow(id, trigger, slot), sim);
      AdvanceOk(w.(flows := w.flows + [NewFlow(id, trigger, slot)]), |w.flows|, a, left - 1, sim);
    }
  }

  /** What is in memory besides the map does not matter for safety. */
  lemma MemoryIsFree(w: World, inBand: map<Series, bool>, lastPrice: map<Series, real>, sim: bool)
    requires WorldOk(w, sim)
    ensures WorldOk(w.(inBand := inBand, lastPrice := lastPrice), sim)
  {
    hide BookOk, FlowsOk, Accounted, TrackedOk;
  }

  lemma MaybeTriggerOk(w: World, s: Settings, selected: Option<Slot>, id: string, now: int, healthy: bool, a: Answers,
                       left: nat)
    requires WorldOk(w, s.simulation) && Fresh(w, id)
    ensures WorldOk(MaybeTrigger(w, s, selected, id, now, healthy, a, left).world, s.simulation)
  {
    hide WorldOk, Begin;
    if selected.Some? {
      var looked := w.(inBand := w.inBand[SeriesOf(selected.value) := InNoEntryBand(s, now)]);
      MemoryIsFree(w, looked.inBand, w.lastPrice, s.simulation);
      assert Fresh(looked, id);
      BeginOk(looked, id, Scheduled(SeriesOf(selected.value), DateOf(now)), selected.value, a, left, s.simulation);
    }
  }

  lemma RetireOk(w: World, s: Settings, left: nat)
    requires WorldOk(w, s.simulation)
    ensures WorldOk(RetireSimulated(w, s, left).world, s.simulation)
  {
    hide WorldOk, RetireUpTo;
    if s.simulation {
      RetireAllOk(w, |w.flows|, left);
    }
  }

  lemma PolledOk(w: World, s: Settings, answers: nat -> Answers, left: nat)
    requires WorldOk(w, s.simulation)
    ensures WorldOk(Polled(w, s, answers, left).world, s.simulation)
  {
    hide WorldOk, RetireSimulated, ResumeUpTo;
    RetireOk(w, s, left);
    var retired := RetireSimulated(w, s, left);
    ResumeAllOk(retired.world, |retired.world.flows|, answers, retired.left, s.simulation);
  }

  /** The id is drawn when the workflow begins, and is fresh then. */
  ghost predicate FreshAtTrigger(w: World, s: Settings, t: Tick, left: nat) {
    Fresh(Polled(w, s, t.answers, left).world, t.id)
  }

  lemma ClockOk(w: World, s: Settings, t: Tick, left: nat)
    requires WorldOk(w, s.simulation) && FreshAtTrigger(w, s, t, left)
    ensures WorldOk(OnClockTick(w, s, t, left).world, s.simulation)
  {
    hide WorldOk, Polled, MaybeTrigger, Fresh;
    PolledOk(w, s, t.answers, left);
    var p := Polled(w, s, t.answers, left);
    MaybeTriggerOk(p.world, s, t.selected, t.id, t.now, t.healthy, t.a, p.left);
  }

  lemma ReloadOk(w: World, sim: bool)
    requires WorldOk(w, sim)
    ensures WorldOk(w.(tracked := Reloaded(w.flows)), sim)
  {
    hide WorldOk, TrackedOk, Reloaded;
    ReloadedIsOk(w.flows);
    TrackOk(w, Reloaded(w.flows), sim);
  }

  lemma RestartedOk(w: World, s: Settings, left: nat)
    requires WorldOk(w, s.simulation)
    ensures WorldOk(Restarted(w, s, left).world, s.simulation)
  {
    hide WorldOk, RetireSimulated, Reloaded;
    assert TrackedOk(w.flows, map[]);
    TrackOk(w, map[], s.simulation);
    MemoryIsFree(w.(tracked := map[]), map[], map[], s.simulation);
    var blank := w.(tracked := map[], inBand := map[], lastPrice := map[]);
    RetireOk(blank, s, left);
    ReloadOk(RetireSimulated(blank, s, left).world, s.simulation);
  }

  // ---- whole runs ----

  datatype Step =
    | Elsewhere(op: ManagerProofs.Op)
    | Clock(t: Tick, left: nat)
    | SessionReady(t: Tick, left: nat)
    | Button(id: string, token: string, slot: Slot, confirmed: Net, actual: Net, a: Answers, left: nat)
    | Transition(order: nat, to: Status, a: Answers, left: nat)
    | Review(order: nat, left: nat)
    | BarClosed(series: Series, close: real)
    | Restart(left: nat)

  function Next(w: World, s: Settings, step: Step): World {
    match step
    case Elsewhere(op) => w.(book := ManagerProofs.Step(w.book, op))
    case Clock(t, left) => OnClockTick(w, s, t, left).world
    case SessionReady(t, left) => OnSessionReady(w, s, t, left).world
    case Button(id, token, slot, confirmed, actual, a, left) => TriggerEmergency(w, id, token, slot, confirmed, actual,
        a, left).world
    case Transition(order, to, a, left) => OnTransition(w, order, to, a, left).world
    case Review(order, left) => OnManualReview(w, order, left).world
    case BarClosed(series, close) => OnBarClosed(w, series, close)
    case Restart(left) => Restarted(w, s, left).world
  }

  /** Ids are fresh, other submitters do not use the workflows' keys, and a fill event is sent after its write. */
  ghost predicate Allowed(w: World, s: Settings, step: Step) {
    match step
    case Elsewhere(op) => WellFormed(op)
        && (op.SubmitOp? ==> forall i | 0 <= i < |w.flows| :: op.request.key != CloseKey(w.flows[i].id))
    case Clock(t, left) => FreshAtTrigger(w, s, t, left)
    case SessionReady(t, left) => FreshAtTrigger(w.(tracked := Reloaded(w.flows)), s, t, left)
    case Button(id, _, _, _, _, _, _) => Fresh(w, id)
    case Transition(order, to, _, _) => Truthful(w, order, to)
    case _ => true
  }

  lemma ElsewhereOk(w: World, s: Settings, op: ManagerProofs.Op)
    requires WorldOk(w, s.simulation) && Allowed(w, s, Elsewhere(op))
    ensures WorldOk(Next(w, s, Elsewhere(op)), s.simulation)
  {
    StepExtends(w.book, op);
    hide ManagerProofs.Step, FlowsOk, Accounted, Extends, BookOk, CloseKey, TrackedOk;
    QuietBookOk(w, ManagerProofs.Step(w.book, op), s.simulation);
  }

  lemma ButtonOk(w: World, id: string, token: string, slot: Slot, confirmed: Net, actual: Net, a: Answers, left: nat,
                 sim: bool)
    requires WorldOk(w, sim) && Fresh(w, id)
    ensures WorldOk(TriggerEmergency(w, id, token, slot, confirmed, actual, a, left).world, sim)
  {
    hide WorldOk, Begin, Fresh;
    BeginOk(w, id, Emergency(token), slot, a, left, sim);
  }

  lemma NextOk(w: World, s: Settings, step: Step)
    requires WorldOk(w, s.simulation) && Allowed(w, s, step)
    ensures WorldOk(Next(w, s, step), s.simulation)
  {
    hide WorldOk, OnClockTick, TriggerEmergency, OnTransition, OnManualReview, Restarted, ManagerProofs.Step, Reloaded,
        FreshAtTrigger, Fresh;
    match step
    case Elsewhere(op) => ElsewhereOk(w, s, op);
    case Clock(t, left) => ClockOk(w, s, t, left);
    case SessionReady(t, left) =>
      ReloadOk(w, s.simulation);
      ClockOk(w.(tracked := Reloaded(w.flows)), s, t, left);
    case Button(id, token, slot, confirmed, actual, a, left) =>
      ButtonOk(w, id, token, slot, confirmed, actual, a, left, s.simulation);
    case Transition(order, to, a, left) => OnTransitionOk(w, order, to, a, left, s.simulation);
    case Review(order, left) => ReviewOk(w, order, left, s.simulation);
    case BarClosed(series, close) => MemoryIsFree(w, w.inBand, w.lastPrice[series := close], s.simulation);
    case Restart(left) => RestartedOk(w, s, left);
  }

  const EMPTY: World := World(Book([], []), [], map[], map[], map[])

  /** `steps` from `w` on. */
  function RunFrom(w: World, s: Settings, steps: seq<Step>): World {
    if steps == [] then w else Next(RunFrom(w, s, steps[..|steps| - 1]), s, steps[|steps| - 1])
  }

  function Run(s: Settings, steps: seq<Step>): World {
    RunFrom(EMPTY, s, steps)
  }

  ghost predicate AllAllowed(s: Settings, steps: seq<Step>) {
    forall i | 0 <= i < |steps| :: Allowed(Run(s, steps[..i]), s, steps[i])
  }

  lemma {:induction false} RunKeepsWorld(s: Settings, steps: seq<Step>)
    requires AllAllowed(s, steps)
    ensures WorldOk(Run(s, steps), s.simulation)
  {
    if steps != [] {
      var n := |steps| - 1;
      var earlier := steps[..n];
      assert AllAllowed(s, earlier) by {
        forall i | 0 <= i < n ensures Allowed(Run(s, earlier[..i]), s, earlier[i]) {
          assert earlier[..i] == steps[..i];
          assert Allowed(Run(s, steps[..i]), s, steps[i]);
        }
      }
      RunKeepsWorld(s, earlier);
      assert Allowed(Run(s, steps[..n]), s, steps[n]);
      hide Next, WorldOk, Allowed;
      NextOk(Run(s, earlier), s, steps[n]);
    }
  }

  /** Each workflow sends at most one close, sized and sided to bring the position the broker had answered to
      zero; it is complete only after the close was stored as filled and a later query showed a flat, quiet,
      healthy account; and one that ends already flat has sent nothing. */
  lemma FlattenIsSafe(s: Settings, steps: seq<Step>, i: nat)
    requires AllAllowed(s, steps) && i < |Run(s, steps).flows|
    ensures var b, f := Run(s, steps).book, Run(s, steps).flows[i];
            && (forall j, k | 0 <= j < k < |b.trace| && b.trace[j].Called? && b.trace[k].Called?
                && b.trace[j].key == b.trace[k].key ::
                  b.trace[j].key != CloseKey(f.id))
            && (forall j | 0 <= j < |b.trace| && b.trace[j].Called? && b.trace[j].key == CloseKey(f.id) ::
                  && b.trace[j].slot == f.slot && f.state != AlreadyFlat
                  && exists net: Net :: net != 0 && AskedBefore(b, f.id, net, j)
                      && net + Signed(b.trace[j].side, b.trace[j].lots) == 0)
            && (f.state == Completed ==> ConfirmedFlat(b, f.id, |b.trace|))
            && (f.state == AlreadyFlat && !s.simulation ==> AskedBefore(b, f.id, 0, |b.trace|))
  {
    RunKeepsWorld(s, steps);
    hide Run;
    var w := Run(s, steps);
    FlowIsOk(w, i, s.simulation);
    OneCallPerKey(w.book);
    hide WorldOk, BookOk, AskedBefore, ConfirmedFlat, CloseKey;
  }

  /** At most one unfinished flatten per account and contract, and at most one scheduled flatten per contract
      and date. */
  lemma OneFlattenPerSlot(s: Settings, steps: seq<Step>, i: nat, j: nat)
    requires AllAllowed(s, steps) && i < |Run(s, steps).flows| && j < |Run(s, steps).flows|
    ensures var f, g := Run(s, steps).flows[i], Run(s, steps).flows[j];
            && (Unfinished(f) && Unfinished(g) && f.slot == g.slot ==> i == j)
            && (f.trigger.Scheduled? && f.trigger == g.trigger ==> i == j)
  {
    RunKeepsWorld(s, steps);
    hide Run;
    var flows := Run(s, steps).flows;
    assert FlowsOk(flows);
    hide WorldOk;
    assert i < j ==> flows[i].trigger != flows[j].trigger;
    assert j < i ==> flows[j].trigger != flows[i].trigger;
  }

  // ---- the clock edge ----

  /** No look outside the band is remembered. */
  ghost predicate NeverLookedOutside(w: World) {
    forall series | series in w.inBand :: w.inBand[series]
  }

  /** Every workflow added since is an emergency one. */
  ghost predicate OnlyEmergencies(w: World, v: World) {
    && |w.flows| <= |v.flows|
    && (forall i | 0 <= i < |w.flows| :: v.flows[i].trigger == w.flows[i].trigger)
    && (forall i | |w.flows| <= i < |v.flows| :: v.flows[i].trigger.Emergency?)
  }

  predicate LooksInBand(s: Settings, step: Step) {
    step.Clock? || step.SessionReady? ==> InNoEntryBand(s, step.t.now)
  }

  lemma TickStaysQuiet(w: World, s: Settings, t: Tick, left: nat)
    requires NeverLookedOutside(w) && InNoEntryBand(s, t.now)
    ensures var v := OnClockTick(w, s, t, left).world; NeverLookedOutside(v) && OnlyEmergencies(w, v)
  {
    hide Polled, Begin;
  }

  lemma ButtonAddsEmergency(w: World, id: string, token: string, slot: Slot, confirmed: Net, actual: Net, a: Answers,
                            left: nat)
    ensures var v := TriggerEmergency(w, id, token, slot, confirmed, actual, a, left).world;
            v.inBand == w.inBand && OnlyEmergencies(w, v)
  {
    hide Advance;
  }

  lemma StepStaysQuiet(w: World, s: Settings, step: Step)
    requires NeverLookedOutside(w) && LooksInBand(s, step)
    ensures NeverLookedOutside(Next(w, s, step)) && OnlyEmergencies(w, Next(w, s, step))
  {
    hide OnClockTick, TriggerEmergency, CloseIsFilled, Pause, ManagerProofs.Step, Reloaded, RetireSimulated,
        InNoEntryBand;
    match step
    case Clock(t, left) => TickStaysQuiet(w, s, t, left);
    case SessionReady(t, left) => TickStaysQuiet(w.(tracked := Reloaded(w.flows)), s, t, left);
    case Button(id, token, slot, confirmed, actual, a, left) => ButtonAddsEmergency(w, id, token, slot, confirmed,
        actual, a, left);
    case _ =>
  }

  /** A process that starts inside the no-entry band, and looks at the clock only inside it, never starts a
      scheduled flatten, whatever else happens: that crossing was not seen. */
  lemma {:induction false} RestartInsideBandStaysQuiet(w: World, s: Settings, left: nat, steps: seq<Step>)
    requires forall step | step in steps :: LooksInBand(s, step)
    ensures var r := Restarted(w, s, left).world;
        OnlyEmergencies(r, RunFrom(r, s, steps)) && NeverLookedOutside(RunFrom(r, s, steps))
  {
    var r := Restarted(w, s, left).world;
    if steps == [] {
      assert r.inBand == map[] by {
        hide RetireSimulated, Reloaded;
      }
    } else {
      var earlier, last := steps[..|steps| - 1], steps[|steps| - 1];
      assert last in steps && forall step | step in earlier :: step in steps;
      RestartInsideBandStaysQuiet(w, s, left, earlier);
      hide Next, Restarted, LooksInBand;
      StepStaysQuiet(RunFrom(r, s, earlier), s, last);
    }
  }
}
