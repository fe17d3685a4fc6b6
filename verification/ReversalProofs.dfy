/** Safety of the reversal workflow under every interleaving of crashes, restarts and order events. */
module ReversalProofs {
  import opened Domain
  import opened OrderModel
  import opened ManagerModel
  import opened ManagerProofs
  import opened Legs
  import opened BookGrowth
  import opened ReversalModel

  // ---- the invariant ----

  /** The recorded position is one that needs closing, and the side closes it. */
  ghost predicate Sized(f: Flow) {
    f.startingNet.Some? && f.startingNet.value != 0 && f.side == ClosingSide(f.startingNet.value)
  }

  ghost predicate FlowOk(b: Book, f: Flow) {
    && (f.closeId.Some? ==> f.closeId.value < |b.orders| && b.orders[f.closeId.value].key == CloseKey(f.id))
    && (f.entryId.Some? ==> f.entryId.value < |b.orders| && b.orders[f.entryId.value].key == EntryKey(f.id))
    && (f.state in {EntrySubmitted, Completed} ==> f.entryId.Some?)
    && (f.state == Completed ==> b.orders[f.entryId.value].status == Filled)
    && (f.state == Started ==> f.startingNet.None?)
    && (f.startingNet.Some? ==> AskedBefore(b, f.id, f.startingNet.value, |b.trace|))
    && (f.state !in {Started, PausedSafe, Blocked} ==> Sized(f))
    && (f.state in {CloseSubmitted, CloseFilled, FlatConfirmed, EntrySubmitted, Completed} ==> f.closeId.Some?)
    && (f.state in {CloseFilled, FlatConfirmed, EntrySubmitted, Completed}
        ==> b.orders[f.closeId.value].status == Filled)
    && (f.state in {FlatConfirmed, EntrySubmitted, Completed} ==> ConfirmedFlat(b, f.id, |b.trace|))
  }

  /** A close call brings the position the broker had answered to zero. */
  ghost predicate CloseCallOk(b: Book, f: Flow, j: int)
    requires 0 <= j < |b.trace| && b.trace[j].Called?
  {
    && Sized(f) && b.trace[j].slot == f.slot && b.trace[j].lots > 0
    && f.startingNet.value + Signed(b.trace[j].side, b.trace[j].lots) == 0
    && AskedBefore(b, f.id, f.startingNet.value, j)
  }

  /** An entry call takes two lots the other way, after a confirmed flat position. */
  ghost predicate EntryCallOk(b: Book, f: Flow, j: int)
    requires 0 <= j < |b.trace| && b.trace[j].Called?
  {
    && Sized(f) && b.trace[j].slot == f.slot && b.trace[j].lots == MAX_LOTS
    && (b.trace[j].side == Buy <==> f.startingNet.value < 0)
    && ConfirmedFlat(b, f.id, j)
  }

  ghost predicate CallsOk(b: Book, f: Flow) {
    forall j | 0 <= j < |b.trace| && b.trace[j].Called? ::
      && (b.trace[j].key == CloseKey(f.id) ==> CloseCallOk(b, f, j))
      && (b.trace[j].key == EntryKey(f.id) ==> EntryCallOk(b, f, j))
  }

  /** A paused workflow still holds its slot. */
  predicate Unfinished(f: Flow) {
    f.state != Completed && f.state != Blocked
  }

  /** Ids and triggers name one workflow each, and an account and contract have one active workflow. */
  ghost predicate FlowsOk(flows: seq<Flow>) {
    forall i, j | 0 <= i < j < |flows| ::
      && flows[i].id != flows[j].id && flows[i].trigger != flows[j].trigger
      && (Unfinished(flows[i]) && Unfinished(flows[j]) ==> flows[i].slot != flows[j].slot)
  }

  ghost predicate Accounted(b: Book, flows: seq<Flow>) {
    forall i | 0 <= i < |flows| :: FlowOk(b, flows[i]) && CallsOk(b, flows[i])
  }

  ghost predicate WorldOk(w: World) {
    BookOk(w.book) && FlowsOk(w.flows) && Accounted(w.book, w.flows)
  }

  // ---- growth of the book ----

  lemma FlowStays(b: Book, c: Book, f: Flow)
    requires Extends(b, c) && FlowOk(b, f)
    ensures FlowOk(c, f)
  {
    if f.startingNet.Some? {
      AskedStays(b, c, f.id, f.startingNet.value, |b.trace|);
    }
    if f.state in {FlatConfirmed, EntrySubmitted, Completed} {
      ConfirmedStays(b, c, f.id, |b.trace|);
    }
    hide BookOk, ConfirmedFlat, AskedBefore;
  }

  lemma OldCallStays(b: Book, c: Book, f: Flow, j: nat)
    requires Extends(b, c) && CallsOk(b, f) && j < |b.trace| && c.trace[j].Called?
    ensures c.trace[j].key == CloseKey(f.id) ==> CloseCallOk(c, f, j)
    ensures c.trace[j].key == EntryKey(f.id) ==> EntryCallOk(c, f, j)
  {
    assert c.trace[j] == b.trace[j];
    hide BookOk, ConfirmedFlat, AskedBefore, Later;
    if c.trace[j].key == CloseKey(f.id) {
      AskedStays(b, c, f.id, f.startingNet.value, j);
    }
    if c.trace[j].key == EntryKey(f.id) {
      ConfirmedStays(b, c, f.id, j);
    }
  }

  /** Calls of other keys concern no workflow. */
  lemma CallsStay(b: Book, c: Book, f: Flow)
    requires Extends(b, c) && CallsOk(b, f)
    requires forall j | |b.trace| <= j < |c.trace| && c.trace[j].Called? ::
               c.trace[j].key != CloseKey(f.id) && c.trace[j].key != EntryKey(f.id)
    ensures CallsOk(c, f)
  {
    forall j | 0 <= j < |c.trace| && c.trace[j].Called?
      ensures c.trace[j].key == CloseKey(f.id) ==> CloseCallOk(c, f, j)
      ensures c.trace[j].key == EntryKey(f.id) ==> EntryCallOk(c, f, j)
    {
      if j < |b.trace| {
        OldCallStays(b, c, f, j);
      }
    }
    hide CloseCallOk, EntryCallOk, Extends, CloseKey, EntryKey;
  }

  /** A book that grew only by calls allowed to workflow `i` keeps the world. */
  lemma GrownBookOk(w: World, c: Book, i: nat)
    requires WorldOk(w) && Extends(w.book, c) && i < |w.flows| && CallsOk(c, w.flows[i])
    requires forall j | |w.book.trace| <= j < |c.trace| && c.trace[j].Called? ::
               c.trace[j].key in {CloseKey(w.flows[i].id), EntryKey(w.flows[i].id)}
    ensures WorldOk(w.(book := c))
  {
    hide BookOk, Later, FlowOk, CallsOk, CloseKey, EntryKey;
    forall k | 0 <= k < |w.flows| ensures FlowOk(c, w.flows[k]) && CallsOk(c, w.flows[k]) {
      FlowStays(w.book, c, w.flows[k]);
      if k != i {
        assert w.flows[k].id != w.flows[i].id;
        KeysDiffer(w.flows[k].id, w.flows[i].id);
        KeysDiffer(w.flows[i].id, w.flows[k].id);
        CallsStay(w.book, c, w.flows[k]);
      }
    }
  }

  lemma QuietBookOk(w: World, c: Book)
    requires WorldOk(w) && Extends(w.book, c)
    requires forall j, i | |w.book.trace| <= j < |c.trace| && c.trace[j].Called? && 0 <= i < |w.flows| ::
               c.trace[j].key != CloseKey(w.flows[i].id) && c.trace[j].key != EntryKey(w.flows[i].id)
    ensures WorldOk(w.(book := c))
  {
    hide BookOk, Later, FlowOk, CallsOk, CloseKey, EntryKey;
    forall k | 0 <= k < |w.flows| ensures FlowOk(c, w.flows[k]) && CallsOk(c, w.flows[k]) {
      FlowStays(w.book, c, w.flows[k]);
      CallsStay(w.book, c, w.flows[k]);
    }
  }

  lemma NotedOk(w: World, e: Effect)
    requires WorldOk(w) && !e.Called? && !e.Wrote?
    ensures WorldOk(w.(book := w.book.(trace := w.book.trace + [e])))
  {
    NoteExtends(w.book, e);
    hide BookOk, FlowsOk, Accounted, Extends;
    QuietBookOk(w, w.book.(trace := w.book.trace + [e]));
  }

  // ---- writing one workflow ----

  lemma WriteFlowOk(w: World, i: nat, f: Flow, left: nat)
    requires WorldOk(w) && i < |w.flows| && FlowOk(w.book, f) && CallsOk(w.book, f)
    requires f.id == w.flows[i].id && f.trigger == w.flows[i].trigger && f.slot == w.flows[i].slot
    ensures WorldOk(WriteFlow(w, i, f, left).world)
    ensures WriteFlow(w, i, f, left).alive ==> WriteFlow(w, i, f, left).world == w.(flows := w.flows[i := f])
  {
    hide FlowOk, CallsOk, BookOk;
  }

  lemma TrackedIsFree(w: World, tracked: map<nat, nat>)
    requires WorldOk(w)
    ensures WorldOk(w.(tracked := tracked))
  {
    hide FlowsOk, Accounted, BookOk;
  }

  lemma FlowIsOk(w: World, i: nat)
    requires WorldOk(w) && i < |w.flows|
    ensures FlowOk(w.book, w.flows[i]) && CallsOk(w.book, w.flows[i])
  {
    hide FlowOk, CallsOk, BookOk, FlowsOk;
  }

  /** Calls depend on the recorded position only. */
  lemma CallsKeep(b: Book, f: Flow, g: Flow)
    requires CallsOk(b, f) && g.id == f.id && g.slot == f.slot && g.startingNet == f.startingNet && g.side == f.side
    ensures CallsOk(b, g)
  {
    hide ConfirmedFlat, AskedBefore, CloseKey, EntryKey;
  }

  /** Leaving the normal path keeps every guarantee about the past. */
  lemma HaltedOk(b: Book, f: Flow, state: FlowState)
    requires FlowOk(b, f) && CallsOk(b, f) && state in {PausedSafe, Blocked}
    ensures FlowOk(b, f.(state := state)) && CallsOk(b, f.(state := state))
  {
    CallsKeep(b, f, f.(state := state));
    hide ConfirmedFlat, AskedBefore, CallsOk;
  }

  lemma PauseOk(w: World, i: nat, left: nat)
    requires WorldOk(w) && i < |w.flows|
    ensures WorldOk(Pause(w, i, left).world)
  {
    hide WorldOk, FlowOk, CallsOk;
    var f := w.flows[i].(state := PausedSafe);
    FlowIsOk(w, i);
    HaltedOk(w.book, w.flows[i], PausedSafe);
    WriteFlowOk(w, i, f, left);
    TrackedIsFree(WriteFlow(w, i, f, left).world, Untracked(w, f));
  }

  // ---- submitting a leg ----

  /** The calls of a leg are those its workflow is allowed. */
  lemma LegCallsOk(b: Book, c: Book, f: Flow, isClose: bool)
    requires Extends(b, c) && FlowOk(b, f) && CallsOk(b, f) && Sized(f)
    requires !isClose ==> ConfirmedFlat(b, f.id, |b.trace|)
    requires var r := Leg(f, isClose); OnlyCalls(b, c, r.key, r.slot, r.side, r.lots)
    ensures CallsOk(c, f)
  {
    KeysDiffer(f.id, f.id);
    AskedStays(b, c, f.id, f.startingNet.value, |b.trace|);
    if !isClose {
      ConfirmedStays(b, c, f.id, |b.trace|);
    }
    hide ConfirmedFlat, AskedBefore, CloseKey, EntryKey, BookOk, Later, FlowOk;
    forall j | 0 <= j < |c.trace| && c.trace[j].Called?
      ensures c.trace[j].key == CloseKey(f.id) ==> CloseCallOk(c, f, j)
      ensures c.trace[j].key == EntryKey(f.id) ==> EntryCallOk(c, f, j)
    {
      if j < |b.trace| {
        OldCallStays(b, c, f, j);
      }
    }
    hide CloseCallOk, EntryCallOk;
  }

  lemma LinkOk(w: World, i: nat, isClose: bool, id: nat, left: nat)
    requires WorldOk(w) && i < |w.flows| && w.flows[i].state == (if isClose then PositionQueried else FlatConfirmed)
    requires id < |w.book.orders|
    requires w.book.orders[id].key == if isClose then CloseKey(w.flows[i].id) else EntryKey(w.flows[i].id)
    ensures WorldOk(Link(w, i, isClose, id, left).world)
  {
    var f := w.flows[i];
    var linked := if isClose then f.(state := CloseSubmitted, closeId := Some(id))
        else f.(state := EntrySubmitted, entryId := Some(id));
    FlowIsOk(w, i);
    CallsKeep(w.book, f, linked);
    hide WorldOk, CallsOk, ConfirmedFlat, AskedBefore, CloseKey;
    WriteFlowOk(w, i, linked, left);
    var r := WriteFlow(w, i, linked, left);
    TrackedIsFree(r.world, r.world.tracked[id := i]);
  }

  /** The manager's answer to a leg leaves the world sound, and a row it returns is the leg's own. */
  lemma LegOk(w: World, i: nat, isClose: bool, env: Env)
    requires WorldOk(w) && i < |w.flows| && w.flows[i].state == (if isClose then PositionQueried else FlatConfirmed)
    ensures w.flows[i].side.Some? && w.flows[i].startingNet.Some?
    ensures var s := Submit(w.book, Leg(w.flows[i], isClose), env);
            && WorldOk(w.(book := s.book))
            && (s.result.Existing? || s.result.Sent? || s.result.SentUnknown? ==>
                  s.result.id < |s.book.orders| && s.book.orders[s.result.id].key == Leg(w.flows[i], isClose).key)
  {
    var f := w.flows[i];
    FlowIsOk(w, i);
    assert Sized(f);
    assert !isClose ==> ConfirmedFlat(w.book, f.id, |w.book.trace|);
    var r := Leg(f, isClose);
    assert BookOk(w.book) && 1 <= r.lots <= MAX_LOTS;
    hide WorldOk, CallsOk, BookOk, FlowOk, Sized, ConfirmedFlat, Submit, CloseKey, EntryKey, Extends;
    SubmitExtends(w.book, r, env);
    var c := Submit(w.book, r, env).book;
    LegCallsOk(w.book, c, f, isClose);
    GrownBookOk(w, c, i);
  }

  lemma SubmitLegOk(w: World, i: nat, isClose: bool, net: int, raises: bool, now: int, left: nat)
    requires WorldOk(w) && i < |w.flows| && w.flows[i].state == (if isClose then PositionQueried else FlatConfirmed)
    requires w.flows[i].side.Some? && w.flows[i].startingNet.Some?
    ensures WorldOk(SubmitLeg(w, i, isClose, net, raises, now, left).world)
  {
    hide WorldOk, Submit, Link, Pause, CloseKey, EntryKey, Remaining;
    var env := Env(net, now, raises, left);
    LegOk(w, i, isClose, env);
    var s := Submit(w.book, Leg(w.flows[i], isClose), env);
    var w1, left1 := w.(book := s.book), Remaining(w.book, s.book, left);
    if s.result in {ActiveWorkflow, ExposureExceeded} {
      PauseOk(w1, i, left1);
    } else if s.result.Existing? || s.result.Sent? || s.result.SentUnknown? {
      LinkOk(w1, i, isClose, s.result.id, left1);
    }
  }

  // ---- advancing ----

  lemma FromQueriedOk(w: World, i: nat, a: Answers, left: nat)
    requires WorldOk(w) && i < |w.flows| && w.flows[i].state == PositionQueried
    ensures WorldOk(FromQueried(w, i, a, left).world)
  {
    hide WorldOk, SubmitLeg;
    if w.flows[i].side.Some? && w.flows[i].startingNet.Some? {
      SubmitLegOk(w, i, true, a.closeNet, a.raises, a.now, left);
    }
  }

  lemma FromFlatOk(w: World, i: nat, a: Answers, left: nat)
    requires WorldOk(w) && i < |w.flows| && w.flows[i].state == FlatConfirmed
    ensures WorldOk(FromFlat(w, i, a, left).world)
  {
    hide WorldOk, SubmitLeg;
    if w.flows[i].side.Some? && w.flows[i].startingNet.Some? {
      SubmitLegOk(w, i, false, a.entryNet, a.raises, a.now, left);
    }
  }

  /** A workflow that has just recorded the answer has sent nothing yet. */
  lemma QueriedOk(b: Book, f: Flow, net: Net)
    requires FlowOk(b, f) && CallsOk(b, f) && f.state == Started && net != 0 && AskedBefore(b, f.id, net, |b.trace|)
    ensures var q := f.(state := PositionQueried, startingNet := Some(net), side := ClosingSide(net));
        FlowOk(b, q) && CallsOk(b, q)
  {
    hide ConfirmedFlat, AskedBefore, CloseKey, EntryKey;
    assert forall j | 0 <= j < |b.trace| && b.trace[j].Called? ::
        b.trace[j].key != CloseKey(f.id) && b.trace[j].key != EntryKey(f.id);
  }

  lemma FromStartedOk(w: World, i: nat, a: Answers, left: nat)
    requires WorldOk(w) && i < |w.flows| && w.flows[i].state == Started
    ensures WorldOk(FromStarted(w, i, a, left).world)
  {
    hide WorldOk, FlowOk, CallsOk, FromQueried, AskedBefore;
    var f := w.flows[i];
    var asked := w.(book := w.book.(trace := w.book.trace + [Asked(f.id, a.netAtStart)]));
    NotedOk(w, Asked(f.id, a.netAtStart));
    FlowIsOk(asked, i);
    if a.netAtStart == 0 {
      HaltedOk(asked.book, f, Blocked);
      WriteFlowOk(asked, i, f.(state := Blocked), left);
      TrackedIsFree(WriteFlow(asked, i, f.(state := Blocked), left).world, Untracked(w, f));
    } else {
      AnswerIsAsked(w.book, f.id, a.netAtStart);
      QueriedOk(asked.book, f, a.netAtStart);
      var q := f.(state := PositionQueried, startingNet := Some(a.netAtStart), side := ClosingSide(a.netAtStart));
      WriteFlowOk(asked, i, q, left);
      var r := WriteFlow(asked, i, q, left);
      if r.alive {
        FromQueriedOk(r.world, i, a, r.left);
      }
    }
  }

  lemma ConfirmedOk(b: Book, f: Flow)
    requires FlowOk(b, f) && CallsOk(b, f) && f.state == CloseFilled && ConfirmedFlat(b, f.id, |b.trace|)
    ensures FlowOk(b, f.(state := FlatConfirmed)) && CallsOk(b, f.(state := FlatConfirmed))
  {
    CallsKeep(b, f, f.(state := FlatConfirmed));
    hide ConfirmedFlat, AskedBefore, CallsOk;
  }

  lemma CloseLegIsFilled(w: World, i: nat)
    requires WorldOk(w) && i < |w.flows| && w.flows[i].state == CloseFilled
    ensures var f := w.flows[i];
            && BookOk(w.book) && f.closeId.Some? && f.closeId.value < |w.book.orders|
            && w.book.orders[f.closeId.value].status == Filled && w.book.orders[f.closeId.value].key == CloseKey(f.id)
  {
    FlowIsOk(w, i);
    hide BookOk, CallsOk, ConfirmedFlat, AskedBefore, FlowsOk, Accounted, CloseKey;
  }

  lemma FromCloseFilledOk(w: World, i: nat, a: Answers, left: nat)
    requires WorldOk(w) && i < |w.flows| && w.flows[i].state == CloseFilled
    ensures WorldOk(FromCloseFilled(w, i, a, left).world)
  {
    hide WorldOk, FlowOk, CallsOk, FromFlat, ConfirmedFlat, BookOk, CloseKey, Pause;
    var f := w.flows[i];
    var active := HasActive(w.book.orders, f.slot);
    var e := Queried(f.id, a.netAtFlat, active, a.sessionHealthy, a.dataHealthy);
    var asked := w.(book := w.book.(trace := w.book.trace + [e]));
    NotedOk(w, e);
    if FlatNow(a, active) {
      CloseLegIsFilled(w, i);
      QueryConfirms(w.book, f.id, f.closeId.value);
      FlowIsOk(asked, i);
      ConfirmedOk(asked.book, f);
      WriteFlowOk(asked, i, f.(state := FlatConfirmed), left);
      var r := WriteFlow(asked, i, f.(state := FlatConfirmed), left);
      if r.alive {
        FromFlatOk(r.world, i, a, r.left);
      }
    } else {
      PauseOk(asked, i, left);
    }
  }

  lemma AdvanceOk(w: World, i: nat, a: Answers, left: nat)
    requires WorldOk(w) && i < |w.flows|
    ensures WorldOk(Advance(w, i, a, left).world)
  {
    hide WorldOk, FromStarted, FromQueried, FromCloseFilled, FromFlat;
    match w.flows[i].state
    case Started => FromStartedOk(w, i, a, left);
    case PositionQueried => FromQueriedOk(w, i, a, left);
    case CloseFilled => FromCloseFilledOk(w, i, a, left);
    case FlatConfirmed => FromFlatOk(w, i, a, left);
    case _ =>
  }

  // ---- events and recovery ----

  lemma FilledOk(b: Book, f: Flow)
    requires FlowOk(b, f) && CallsOk(b, f) && f.state == CloseSubmitted && b.orders[f.closeId.value].status == Filled
    ensures FlowOk(b, f.(state := CloseFilled)) && CallsOk(b, f.(state := CloseFilled))
  {
    CallsKeep(b, f, f.(state := CloseFilled));
    hide ConfirmedFlat, AskedBefore, CallsOk;
  }

  lemma CloseIsFilledOk(w: World, i: nat, a: Answers, left: nat)
    requires WorldOk(w) && i < |w.flows| && w.flows[i].state == CloseSubmitted && w.flows[i].closeId.Some?
    requires w.flows[i].closeId.value < |w.book.orders| && w.book.orders[w.flows[i].closeId.value].status == Filled
    ensures WorldOk(CloseIsFilled(w, i, a, left).world)
  {
    hide WorldOk, CallsOk, Advance, AskedBefore, ConfirmedFlat, CloseKey;
    FlowIsOk(w, i);
    FilledOk(w.book, w.flows[i]);
    WriteFlowOk(w, i, w.flows[i].(state := CloseFilled), left);
    var r := WriteFlow(w, i, w.flows[i].(state := CloseFilled), left);
    if r.alive {
      AdvanceOk(r.world, i, a, r.left);
    }
  }

  lemma EntryIsFilledOk(w: World, i: nat, left: nat)
    requires WorldOk(w) && i < |w.flows| && w.flows[i].state == EntrySubmitted && w.flows[i].entryId.Some?
    requires w.flows[i].entryId.value < |w.book.orders| && w.book.orders[w.flows[i].entryId.value].status == Filled
    ensures WorldOk(EntryIsFilled(w, i, left).world)
  {
    hide WorldOk, CallsOk, AskedBefore, ConfirmedFlat, CloseKey;
    var f := w.flows[i].(state := Completed);
    FlowIsOk(w, i);
    CallsKeep(w.book, w.flows[i], f);
    WriteFlowOk(w, i, f, left);
    TrackedIsFree(WriteFlow(w, i, f, left).world, Untracked(w, f));
  }

  /** A fill event follows the write it announces. */
  predicate Truthful(w: World, order: nat, to: Status) {
    to == Filled ==> order < |w.book.orders| && w.book.orders[order].status == Filled
  }

  lemma OnTransitionOk(w: World, order: nat, to: Status, a: Answers, left: nat)
    requires WorldOk(w) && Truthful(w, order, to)
    ensures WorldOk(OnTransition(w, order, to, a, left).world)
  {
    hide WorldOk, CloseIsFilled, EntryIsFilled, Pause;
    if Follows(w, order) {
      var i := w.tracked[order];
      var f := w.flows[i];
      if to == Filled && f.closeId == Some(order) && f.state == CloseSubmitted {
        CloseIsFilledOk(w, i, a, left);
      } else if to == Filled && f.entryId == Some(order) && f.state == EntrySubmitted {
        EntryIsFilledOk(w, i, left);
      } else if to == Cancelled {
        PauseOk(w, i, left);
      }
    }
  }

  lemma ResumeOneOk(w: World, i: nat, a: Answers, left: nat)
    requires WorldOk(w) && i < |w.flows|
    ensures WorldOk(ResumeOne(w, i, a, left).world)
  {
    hide WorldOk, CloseIsFilled, EntryIsFilled, Pause, Advance;
    var f := w.flows[i];
    AdvanceOk(w, i, a, left);
    PauseOk(w, i, left);
    if f.state == CloseSubmitted && f.closeId.Some? && f.closeId.value < |w.book.orders| {
      var w1 := w.(tracked := w.tracked[f.closeId.value := i]);
      TrackedIsFree(w, w1.tracked);
      PauseOk(w1, i, left);
      if w.book.orders[f.closeId.value].status == Filled {
        CloseIsFilledOk(w1, i, a, left);
      }
    } else if f.state == EntrySubmitted && f.entryId.Some? && f.entryId.value < |w.book.orders| {
      var w1 := w.(tracked := w.tracked[f.entryId.value := i]);
      TrackedIsFree(w, w1.tracked);
      PauseOk(w1, i, left);
      if w.book.orders[f.entryId.value].status == Filled {
        EntryIsFilledOk(w1, i, left);
      }
    }
  }

  lemma {:induction false} ResumeAllOk(w: World, n: nat, answers: nat -> Answers, left: nat)
    requires WorldOk(w) && n <= |w.flows|
    ensures WorldOk(ResumeUpTo(w, n, answers, left).world)
  {
    hide WorldOk, ResumeOne;
    if n > 0 {
      ResumeAllOk(w, n - 1, answers, left);
      var before := ResumeUpTo(w, n - 1, answers, left);
      if before.alive {
        ResumeOneOk(before.world, n - 1, answers(n - 1), before.left);
      }
    }
  }

  /** A fresh id: no workflow carries it and no order was made for it. */
  ghost predicate Fresh(w: World, id: string) {
    && (forall i | 0 <= i < |w.flows| :: w.flows[i].id != id)
    && (forall i | 0 <= i < |w.book.orders| ::
          w.book.orders[i].key != CloseKey(id) && w.book.orders[i].key != EntryKey(id))
  }

  lemma NewFlowOk(w: World, f: Flow)
    requires WorldOk(w) && Fresh(w, f.id) && f.state == Started && f.startingNet.None? && f.closeId.None?
        && f.entryId.None?
    requires FindTrigger(w.flows, f.trigger).None? && !HasActiveFlow(w.flows, f.slot)
    ensures WorldOk(w.(flows := w.flows + [f]))
  {
    assert FlowOk(w.book, f);
    assert CallsOk(w.book, f) by {
      forall j | 0 <= j < |w.book.trace| && w.book.trace[j].Called?
        ensures w.book.trace[j].key != CloseKey(f.id) && w.book.trace[j].key != EntryKey(f.id)
      {
        assert CallMatches(w.book.orders, w.book.trace[j]);
      }
    }
    var flows := w.flows + [f];
    assert forall i | 0 <= i < |w.flows| :: flows[i] == w.flows[i];
    hide BookOk, FlowOk, CallsOk;
  }

  lemma StartReversalOk(w: World, reverse: bool, id: string, trigger: string, slot: Slot, tooClose: bool, a: Answers,
                        left: nat)
    requires WorldOk(w) && Fresh(w, id)
    ensures WorldOk(StartReversal(w, reverse, id, trigger, slot, tooClose, a, left).world)
  {
    hide WorldOk, FlowOk, CallsOk, Advance, Fresh;
    if FindTrigger(w.flows, trigger).None? && !HasActiveFlow(w.flows, slot) && left > 0 {
      var f, i := Flow(id, trigger, slot, Started, None, None, None, None), |w.flows|;
      NewFlowOk(w, f);
      var w1 := w.(flows := w.flows + [f]);
      FlowIsOk(w1, i);
      HaltedOk(w1.book, f, Blocked);
      WriteFlowOk(w1, i, f.(state := Blocked), left - 1);
      AdvanceOk(w1, i, a, left - 1);
    }
  }

  // ---- whole runs ----

  /** One step: the rest of the system uses the manager, the service starts, reacts, or resumes; a restart
      rebuilds the in-memory map and does no more. Any step may be cut after `left` effects. */
  datatype Step =
    | Elsewhere(op: ManagerProofs.Op)
    | Start(reverse: bool, id: string, trigger: string, slot: Slot, tooClose: bool, a: Answers, left: nat)
    | Transition(order: nat, to: Status, a: Answers, left: nat)
    | Review(order: nat, left: nat)
    | Resume(answers: nat -> Answers, left: nat)
    | Restart
    | Retire(i: nat)

  function Next(w: World, s: Step): World {
    match s
    case Elsewhere(op) => w.(book := ManagerProofs.Step(w.book, op))
    case Start(reverse, id, trigger, slot, tooClose, a, left) => StartReversal(w, reverse, id, trigger, slot, tooClose,
        a, left).world
    case Transition(order, to, a, left) => OnTransition(w, order, to, a, left).world
    case Review(order, left) => OnManualReview(w, order, left).world
    case Resume(answers, left) => ResumePending(w, answers, left).world
    case Restart => w.(tracked := Reloaded(w.flows))
    case Retire(i) => if i < |w.flows|
        && w.flows[i].state == PausedSafe then WriteFlow(w, i, w.flows[i].(state := Blocked), 1).world else w
  }

  /** Ids are fresh, other submitters do not use the workflows' keys, and a fill event is sent after its write. */
  ghost predicate Allowed(w: World, s: Step) {
    match s
    case Elsewhere(op) => WellFormed(op) && (op.SubmitOp? ==> forall i | 0 <= i < |w.flows| ::
        op.request.key != CloseKey(w.flows[i].id) && op.request.key != EntryKey(w.flows[i].id))
    case Start(_, id, _, _, _, _, _) => Fresh(w, id)
    case Transition(order, to, _, _) => Truthful(w, order, to)
    case _ => true
  }

  lemma ElsewhereOk(w: World, op: ManagerProofs.Op)
    requires WorldOk(w) && Allowed(w, Elsewhere(op))
    ensures WorldOk(Next(w, Elsewhere(op)))
  {
    StepExtends(w.book, op);
    hide ManagerProofs.Step, FlowsOk, Accounted, Extends, BookOk, CloseKey, EntryKey;
    QuietBookOk(w, ManagerProofs.Step(w.book, op));
  }

  lemma NextOk(w: World, s: Step)
    requires WorldOk(w) && Allowed(w, s)
    ensures WorldOk(Next(w, s))
  {
    hide WorldOk, StartReversal, OnTransition, OnManualReview, ResumePending, FlowOk, CallsOk, ManagerProofs.Step,
        Reloaded;
    match s
    case Elsewhere(op) => ElsewhereOk(w, op);
    case Start(reverse, id, trigger, slot, tooClose, a, left) => StartReversalOk(w, reverse, id, trigger, slot,
        tooClose, a, left);
    case Transition(order, to, a, left) => OnTransitionOk(w, order, to, a, left);
    case Review(order, left) => ReviewOk(w, order, left);
    case Resume(answers, left) => ResumeOk(w, answers, left);
    case Restart => TrackedIsFree(w, Reloaded(w.flows));
    case Retire(i) =>
      if i < |w.flows| {
        FlowIsOk(w, i);
        HaltedOk(w.book, w.flows[i], Blocked);
        WriteFlowOk(w, i, w.flows[i].(state := Blocked), 1);
      }
  }

  lemma ReviewOk(w: World, order: nat, left: nat)
    requires WorldOk(w)
    ensures WorldOk(OnManualReview(w, order, left).world)
  {
    hide WorldOk, Pause;
    if Follows(w, order) {
      PauseOk(w, w.tracked[order], left);
    }
  }

  lemma ResumeOk(w: World, answers: nat -> Answers, left: nat)
    requires WorldOk(w)
    ensures WorldOk(ResumePending(w, answers, left).world)
  {
    TrackedIsFree(w, Reloaded(w.flows));
    hide WorldOk, ResumeUpTo, Reloaded;
    ResumeAllOk(w.(tracked := Reloaded(w.flows)), |w.flows|, answers, left);
  }

  const EMPTY: World := World(Book([], []), [], map[])

  function Run(steps: seq<Step>): World {
    if steps == [] then EMPTY else Next(Run(steps[..|steps| - 1]), steps[|steps| - 1])
  }

  ghost predicate AllAllowed(steps: seq<Step>) {
    forall i | 0 <= i < |steps| :: Allowed(Run(steps[..i]), steps[i])
  }

  lemma {:induction false} RunKeepsWorld(steps: seq<Step>)
    requires AllAllowed(steps)
    ensures WorldOk(Run(steps))
  {
    if steps != [] {
      var n := |steps| - 1;
      var earlier := steps[..n];
      assert AllAllowed(earlier) by {
        forall i | 0 <= i < n ensures Allowed(Run(earlier[..i]), earlier[i]) {
          assert earlier[..i] == steps[..i];
          assert Allowed(Run(steps[..i]), steps[i]);
        }
      }
      RunKeepsWorld(earlier);
      assert Allowed(Run(steps[..n]), steps[n]);
      hide Next, WorldOk, Allowed;
      NextOk(Run(earlier), steps[n]);
    }
  }

  /** Under every interleaving: a workflow's close leg and its entry leg reach the gateway at most once each;
      the close brings the position the broker answered to zero; the entry is two lots in the same direction
      and follows the stored fill of the close and a later query showing a flat, quiet, healthy account. */
  lemma ReversalIsSafe(steps: seq<Step>, i: nat)
    requires AllAllowed(steps) && i < |Run(steps).flows|
    ensures var b, f := Run(steps).book, Run(steps).flows[i];
            && (forall j, k | 0 <= j < k < |b.trace| && b.trace[j].Called? && b.trace[k].Called?
                && b.trace[j].key == b.trace[k].key ::
                  b.trace[j].key != CloseKey(f.id) && b.trace[j].key != EntryKey(f.id))
            && (forall j | 0 <= j < |b.trace| && b.trace[j].Called? && b.trace[j].key == CloseKey(f.id) ::
                  exists net: Net :: net != 0 && AskedBefore(b, f.id, net, j)
                      && net + Signed(b.trace[j].side, b.trace[j].lots) == 0
                                     && b.trace[j].slot == f.slot)
            && (forall j | 0 <= j < |b.trace| && b.trace[j].Called? && b.trace[j].key == EntryKey(f.id) ::
                  ConfirmedFlat(b, f.id, j) && b.trace[j].lots == MAX_LOTS && b.trace[j].slot == f.slot)
  {
    RunKeepsWorld(steps);
    hide Run;
    var w := Run(steps);
    FlowIsOk(w, i);
    OneCallPerKey(w.book);
    hide WorldOk, FlowOk, BookOk, AskedBefore, ConfirmedFlat, CloseKey, EntryKey;
  }

  /** A completed reversal has both its orders stored as filled, under its own keys, and was confirmed flat in
      between. */
  lemma CompletedMeansFilled(steps: seq<Step>, i: nat)
    requires AllAllowed(steps) && i < |Run(steps).flows| && Run(steps).flows[i].state == Completed
    ensures var b, f := Run(steps).book, Run(steps).flows[i];
            && f.closeId.Some? && f.closeId.value < |b.orders| && f.entryId.Some? && f.entryId.value < |b.orders|
            && b.orders[f.closeId.value].key == CloseKey(f.id) && b.orders[f.closeId.value].status == Filled
            && b.orders[f.entryId.value].key == EntryKey(f.id) && b.orders[f.entryId.value].status == Filled
            && ConfirmedFlat(b, f.id, |b.trace|)
  {
    RunKeepsWorld(steps);
    hide Run;
    FlowIsOk(Run(steps), i);
    hide WorldOk, CallsOk, AskedBefore, ConfirmedFlat, CloseKey, EntryKey;
  }

  /** Both legs trade in one direction. */
  lemma LegsShareASide(steps: seq<Step>, i: nat, j: nat, k: nat)
    requires AllAllowed(steps) && i < |Run(steps).flows|
    requires var b, f := Run(steps).book, Run(steps).flows[i];
             && j < |b.trace| && b.trace[j].Called? && b.trace[j].key == CloseKey(f.id)
             && k < |b.trace| && b.trace[k].Called? && b.trace[k].key == EntryKey(f.id)
    ensures Run(steps).book.trace[j].side == Run(steps).book.trace[k].side
  {
    RunKeepsWorld(steps);
    hide Run;
    FlowIsOk(Run(steps), i);
    hide WorldOk, FlowOk, BookOk, AskedBefore, ConfirmedFlat, CloseKey, EntryKey;
  }

  /** At most one unfinished reversal per account and contract, and one per trigger. */
  lemma OneReversalPerSlot(steps: seq<Step>, i: nat, j: nat)
    requires AllAllowed(steps) && i < |Run(steps).flows| && j < |Run(steps).flows|
    ensures var f, g := Run(steps).flows[i], Run(steps).flows[j];
            (f.trigger == g.trigger || (Unfinished(f) && Unfinished(g) && f.slot == g.slot)) ==> i == j
  {
    RunKeepsWorld(steps);
    hide Run;
    var flows := Run(steps).flows;
    assert FlowsOk(flows);
    hide WorldOk;
    assert i < j ==> flows[i].trigger != flows[j].trigger;
    assert j < i ==> flows[j].trigger != flows[i].trigger;
  }
}
