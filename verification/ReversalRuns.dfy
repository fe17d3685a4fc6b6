/** Runs of the reversal from start to end: one that completes from any reachable world, and one whose entry is
    sent on a confirmation that no longer holds. */
module ReversalRuns {
  import opened Domain
  import opened OrderModel
  import opened ManagerModel
  import ManagerProofs
  import opened Legs
  import opened BookGrowth
  import opened ReversalModel
  import opened ReversalProofs
  import opened ReversalProgress

  /** What a reversal meets on its way: the answers at its start and at the flat position, and the fills of its
      two legs. */
  datatype Course = Course(id: string, trigger: string, slot: Slot, start: Answers, flat: Answers, closing: Execution,
                           opening: Execution)

  /** Nothing stands in the way: a fresh id and trigger, a free slot, a truthful position that is open, one fill
      for each leg, and a flat, healthy account in between. */
  ghost predicate Clear(w: World, p: Course) {
    && Fresh(w, p.id) && FindTrigger(w.flows, p.trigger).None? && !HasActiveFlow(w.flows, p.slot)
    && p.slot.instrument == Mxf && !HasActive(w.book.orders, p.slot)
    && p.start.netAtStart != 0 && p.start.closeNet == p.start.netAtStart && !p.start.raises
    && p.closing.lots == Magnitude(p.start.netAtStart) && p.opening.lots == MAX_LOTS
    && p.flat.netAtFlat == 0 && p.flat.entryNet == 0 && p.flat.sessionHealthy && p.flat.dataHealthy && !p.flat.raises
  }

  function SideOf(p: Course): Side
    requires p.start.netAtStart != 0
  {
    ClosingSide(p.start.netAtStart).value
  }

  /** The workflow while its close is out, for order row `row`. */
  function Submitted(p: Course, row: nat): Flow
    requires p.start.netAtStart != 0
  {
    Flow(p.id, p.trigger, p.slot, CloseSubmitted, Some(p.start.netAtStart), ClosingSide(p.start.netAtStart), Some(row),
        None)
  }

  function CloseRow(p: Course, row: nat): Intent
    requires p.start.netAtStart != 0
  {
    NewIntent(Leg(Submitted(p, row), true), p.start.now).(status := Submitting)
  }

  function EntryRow(p: Course, row: nat): Intent
    requires p.start.netAtStart != 0
  {
    NewIntent(Leg(Submitted(p, row), false), p.flat.now).(status := Submitting)
  }

  function StartTrace(p: Course, row: nat): seq<Effect>
    requires p.start.netAtStart != 0
  {
    [Asked(p.id, p.start.netAtStart), Wrote(row, Created), Wrote(row, Submitting),
     Called(row, CloseKey(p.id), p.slot, SideOf(p), Magnitude(p.start.netAtStart))]
  }

  function EntryTrace(p: Course, row: nat): seq<Effect>
    requires p.start.netAtStart != 0
  {
    [Queried(p.id, 0, false, true, true), Wrote(row, Created), Wrote(row, Submitting),
     Called(row, EntryKey(p.id), p.slot, SideOf(p), MAX_LOTS)]
  }

  // ---- the five worlds ----

  function CloseOut(w: World, p: Course): World
    requires p.start.netAtStart != 0
  {
    var row := |w.book.orders|;
    World(Book(w.book.orders + [CloseRow(p, row)], w.book.trace + StartTrace(p, row)), w.flows + [Submitted(p, row)],
          w.tracked[row := |w.flows|])
  }

  function CloseFilledBook(w: World, p: Course): Book
    requires p.start.netAtStart != 0
  {
    var row := |w.book.orders|;
    Book(w.book.orders + [FilledRow(CloseRow(p, row), p.closing)], w.book.trace + StartTrace(p, row)
        + [Wrote(row, Filled)])
  }

  function CloseDone(w: World, p: Course): World
    requires p.start.netAtStart != 0
  {
    CloseOut(w, p).(book := CloseFilledBook(w, p))
  }

  function EntryOut(w: World, p: Course): World
    requires p.start.netAtStart != 0
  {
    var row, b := |w.book.orders|, CloseFilledBook(w, p);
    World(Book(b.orders + [EntryRow(p, row)], b.trace + EntryTrace(p, row + 1)),
          w.flows + [Submitted(p, row).(state := EntrySubmitted, entryId := Some(row + 1))],
          w.tracked[row := |w.flows|][row + 1 := |w.flows|])
  }

  function EntryDone(w: World, p: Course): World
    requires p.start.netAtStart != 0
  {
    var row, out := |w.book.orders|, EntryOut(w, p);
    out.(book := Book(CloseFilledBook(w, p).orders + [FilledRow(EntryRow(p, row), p.opening)], out.book.trace
        + [Wrote(row + 1, Filled)]))
  }

  lemma CloseGoesOut(w: World, p: Course, left: nat)
    requires Clear(w, p) && left >= 6
    ensures StartReversal(w, true, p.id, p.trigger, p.slot, false, p.start, left).world == CloseOut(w, p)
  {
    hide StartReversal, CloseKey, EntryKey, HasActiveFlow, HasActive, FindTrigger;
    assert FindKey(w.book.orders, CloseKey(p.id)).None?;
    StartSendsClose(w, p.id, p.trigger, p.slot, p.start, left);
  }

  lemma CloseIsDone(w: World, p: Course, delivered: int)
    requires Clear(w, p)
    ensures Incoming(CloseOut(w, p).book, |w.book.orders|, Executed(p.closing, delivered)) == CloseFilledBook(w, p)
  {
    hide Clear, StartTrace, CloseKey, EntryKey;
    ClearNumbers(w, p);
    var row, b := |w.book.orders|, CloseOut(w, p).book;
    assert b.orders[row] == CloseRow(p, row);
    OneFillCompletes(b, row, p.closing, delivered);
    assert b.orders[row := FilledRow(CloseRow(p, row), p.closing)] == CloseFilledBook(w, p).orders;
  }

  lemma ClearNumbers(w: World, p: Course)
    requires Clear(w, p)
    ensures p.start.netAtStart != 0 && p.closing.lots == Magnitude(p.start.netAtStart) && p.opening.lots == MAX_LOTS
    ensures p.slot.instrument == Mxf && p.flat.netAtFlat == 0 && p.flat.entryNet == 0 && !p.flat.raises
    ensures p.flat.sessionHealthy && p.flat.dataHealthy
  {
  }

  /** With the close filled the slot is free and the entry's key unused. */
  lemma SlotIsFree(w: World, p: Course)
    requires Clear(w, p)
    ensures !HasActive(CloseFilledBook(w, p).orders, p.slot)
        && FindKey(CloseFilledBook(w, p).orders, EntryKey(p.id)).None?
  {
    KeysDiffer(p.id, p.id);
    hide CloseKey, EntryKey, FindTrigger, HasActiveFlow, StartTrace;
    var orders := CloseFilledBook(w, p).orders;
    assert forall i | 0 <= i < |w.book.orders| :: orders[i] == w.book.orders[i];
    assert orders[|w.book.orders|].key == CloseKey(p.id) && !orders[|w.book.orders|].Active();
    assert forall i | 0 <= i < |orders| :: orders[i].key != EntryKey(p.id);
  }

  lemma EntryGoesOut(w: World, p: Course, left: nat)
    requires Clear(w, p) && left >= 6
    ensures OnTransition(CloseDone(w, p), |w.book.orders|, Filled, p.flat, left).world == EntryOut(w, p)
  {
    SlotIsFree(w, p);
    ClearNumbers(w, p);
    hide Clear, OnTransition, CloseKey, EntryKey, HasActive, FindKey, CloseRow, EntryRow, StartTrace;
    var row, n, done := |w.book.orders|, |w.flows|, CloseDone(w, p);
    assert done.flows[n] == Submitted(p, row) && done.tracked[row] == n && |done.book.orders| == row + 1;
    CloseFillDecides(done, row, p.flat, left);
    EntryIsRow(p, row);
    assert done.flows[n := Submitted(p, row).(state := EntrySubmitted, entryId := Some(row + 1))]
        == EntryOut(w, p).flows;
  }

  lemma EntryIsRow(p: Course, row: nat)
    requires p.start.netAtStart != 0
    ensures EntryRow(p, row) == NewIntent(Leg(Submitted(p, row), false), p.flat.now).(status := Submitting)
  {
  }

  lemma EntryIsDone(w: World, p: Course, delivered: int)
    requires Clear(w, p)
    ensures Incoming(EntryOut(w, p).book, |w.book.orders| + 1, Executed(p.opening, delivered)) == EntryDone(w, p).book
  {
    hide Clear, StartTrace, EntryTrace, CloseKey, EntryKey, CloseFilledBook;
    ClearNumbers(w, p);
    var row, b := |w.book.orders|, EntryOut(w, p).book;
    assert |CloseFilledBook(w, p).orders| == row + 1 by {
      FilledBookSize(w, p);
    }
    assert b.orders[row + 1] == EntryRow(p, row);
    OneFillCompletes(b, row + 1, p.opening, delivered);
  }

  lemma FilledBookSize(w: World, p: Course)
    requires p.start.netAtStart != 0
    ensures |CloseFilledBook(w, p).orders| == |w.book.orders| + 1
  {
  }

  // ---- runs ----

  lemma RunExtends(steps: seq<Step>, s: Step)
    requires AllAllowed(steps) && Allowed(Run(steps), s)
    ensures AllAllowed(steps + [s]) && Run(steps + [s]) == Next(Run(steps), s)
  {
    hide Next, Allowed;
    var all := steps + [s];
    assert all[..|steps|] == steps;
    forall i | 0 <= i < |all| ensures Allowed(Run(all[..i]), all[i]) {
      if i < |steps| {
        assert all[..i] == steps[..i];
        assert Allowed(Run(steps[..i]), steps[i]);
      }
    }
  }

  function StartStep(p: Course): Step {
    Start(true, p.id, p.trigger, p.slot, false, p.start, 6)
  }

  function FillStep(row: nat, fill: Execution): Step {
    Elsewhere(ManagerProofs.IncomingOp(row, Executed(fill, fill.at)))
  }

  /** Start, the close's fill and its event, the entry's fill and its event. */
  function WholeCourse(p: Course, row: nat): seq<Step> {
    [StartStep(p), FillStep(row, p.closing), Transition(row, Filled, p.flat, 6), FillStep(row + 1, p.opening),
     Transition(row + 1, Filled, p.flat, 6)]
  }

  /** Up to the filled close. */
  lemma CloseRuns(steps: seq<Step>, p: Course)
    requires AllAllowed(steps) && Clear(Run(steps), p)
    ensures var w := Run(steps);
            var more := steps + [StartStep(p)] + [FillStep(|w.book.orders|, p.closing)];
            AllAllowed(more) && Run(more) == CloseDone(w, p)
  {
    var w := Run(steps);
    hide Run, StartReversal, Incoming, AllAllowed, CloseOut, CloseFilledBook;
    assert Allowed(w, StartStep(p));
    RunExtends(steps, StartStep(p));
    CloseGoesOut(w, p, 6);
    hide Clear;
    RunExtends(steps + [StartStep(p)], FillStep(|w.book.orders|, p.closing));
    CloseIsDone(w, p, p.closing.at);
    ClearNumbers(w, p);
  }

  lemma EntryRuns(steps: seq<Step>, w: World, p: Course)
    requires AllAllowed(steps) && Clear(w, p) && Run(steps) == CloseDone(w, p)
    ensures var row := |w.book.orders|;
            var more := steps + [Transition(row, Filled, p.flat, 6)] + [FillStep(row + 1, p.opening)];
            AllAllowed(more) && Run(more) == EntryDone(w, p)
  {
    hide Run, OnTransition, Incoming, AllAllowed, Clear, CloseOut;
    ClearNumbers(w, p);
    var row := |w.book.orders|;
    assert Allowed(CloseDone(w, p), Transition(row, Filled, p.flat, 6)) by {
      hide CloseRow, StartTrace;
      assert CloseFilledBook(w, p).orders[row] == FilledRow(CloseRow(p, row), p.closing);
    }
    RunExtends(steps, Transition(row, Filled, p.flat, 6));
    EntryGoesOut(w, p, 6);
    hide CloseFilledBook;
    RunExtends(steps + [Transition(row, Filled, p.flat, 6)], FillStep(row + 1, p.opening));
    EntryIsDone(w, p, p.opening.at);
  }

  lemma DoneRuns(steps: seq<Step>, w: World, p: Course)
    requires AllAllowed(steps) && Clear(w, p) && Run(steps) == EntryDone(w, p)
    ensures var row := |w.book.orders|;
            var more := steps + [Transition(row + 1, Filled, p.flat, 6)];
            && AllAllowed(more) && Run(more).book == EntryDone(w, p).book
            && Run(more).flows == w.flows + [Submitted(p, row).(state := Completed, entryId := Some(row + 1))]
  {
    hide Run, OnTransition, AllAllowed, Clear, CloseRow, EntryRow, StartTrace, EntryTrace;
    ClearNumbers(w, p);
    FilledBookSize(w, p);
    hide CloseFilledBook;
    var row, n, done := |w.book.orders|, |w.flows|, EntryDone(w, p);
    assert done.book.orders[row + 1] == FilledRow(EntryRow(p, row), p.opening);
    assert done.flows[n] == Submitted(p, row).(state := EntrySubmitted, entryId := Some(row + 1))
        && done.tracked[row + 1] == n;
    RunExtends(steps, Transition(row + 1, Filled, p.flat, 6));
    EntryFillCompletes(done, row + 1, p.flat, 6);
    assert done.flows[n := done.flows[n].(state := Completed)]
        == w.flows + [Submitted(p, row).(state := Completed, entryId := Some(row + 1))];
  }

  /** The position before, plus the whole close, plus the entry. */
  lemma PositionIsReversed(w: World, p: Course, base: int)
    requires Clear(w, p) && ManagerProofs.Position(w.book.orders, p.slot, base) == p.start.netAtStart
    ensures ManagerProofs.Position(EntryDone(w, p).book.orders, p.slot, base) == Signed(SideOf(p), MAX_LOTS)
  {
    hide Clear, StartTrace, EntryTrace, CloseKey, EntryKey;
    ClearNumbers(w, p);
    var row := |w.book.orders|;
    PositionAdds(w.book.orders, FilledRow(CloseRow(p, row), p.closing), p.slot, base);
    PositionAdds(CloseFilledBook(w, p).orders, FilledRow(EntryRow(p, row), p.opening), p.slot, base);
  }

  lemma DoneTrace(w: World, p: Course)
    requires p.start.netAtStart != 0
    ensures var row := |w.book.orders|;
            EntryDone(w, p).book.trace
              == w.book.trace + StartTrace(p, row) + [Wrote(row, Filled)] + EntryTrace(p, row + 1)
                  + [Wrote(row + 1, Filled)]
  {
    hide StartTrace, EntryTrace, CloseRow, EntryRow;
  }

  /** From any reachable world with a free slot, a reversal whose legs are filled runs to completion: it calls
      the gateway exactly twice, the close then the entry, and turns the position over to two lots. */
  lemma ReversalCompletes(steps: seq<Step>, p: Course, base: int)
    requires AllAllowed(steps) && Clear(Run(steps), p)
    requires ManagerProofs.Position(Run(steps).book.orders, p.slot, base) == p.start.netAtStart
    ensures var w, row := Run(steps), |Run(steps).book.orders|;
            var more := steps + WholeCourse(p, row);
            var v := Run(more);
            && AllAllowed(more)
            && v.flows == w.flows + [Submitted(p, row).(state := Completed, entryId := Some(row + 1))]
            && v.book.trace == w.book.trace + StartTrace(p, row) + [Wrote(row, Filled)] + EntryTrace(p, row + 1)
                + [Wrote(row + 1, Filled)]
            && ManagerProofs.Position(v.book.orders, p.slot, base) == Signed(SideOf(p), MAX_LOTS)
  {
    var w, row := Run(steps), |Run(steps).book.orders|;
    hide Run, AllAllowed, Clear, StartTrace, EntryTrace, EntryDone, WholeCourse, Submitted, ManagerProofs.Position;
    ClearNumbers(w, p);
    PositionIsReversed(w, p, base);
    DoneTrace(w, p);
    CourseRuns(steps, p);
  }

  lemma CourseRuns(steps: seq<Step>, p: Course)
    requires AllAllowed(steps) && Clear(Run(steps), p)
    ensures var w, row := Run(steps), |Run(steps).book.orders|;
            var more := steps + WholeCourse(p, row);
            && AllAllowed(more) && Run(more).book == EntryDone(w, p).book
            && Run(more).flows == w.flows + [Submitted(p, row).(state := Completed, entryId := Some(row + 1))]
  {
    var w, row := Run(steps), |Run(steps).book.orders|;
    hide Run, AllAllowed, Clear, CloseDone, EntryDone, StartStep, FillStep, Submitted;
    CloseRuns(steps, p);
    var one := steps + [StartStep(p)] + [FillStep(row, p.closing)];
    EntryRuns(one, w, p);
    var two := one + [Transition(row, Filled, p.flat, 6)] + [FillStep(row + 1, p.opening)];
    DoneRuns(two, w, p);
    InOrder(steps, StartStep(p), FillStep(row, p.closing), Transition(row, Filled, p.flat, 6),
        FillStep(row + 1, p.opening),
            Transition(row + 1, Filled, p.flat, 6));
  }

  lemma InOrder(steps: seq<Step>, a: Step, b: Step, c: Step, d: Step, e: Step)
    ensures steps + [a] + [b] + [c] + [d] + [e] == steps + [a, b, c, d, e]
  {
  }

  // ---- an entry on an outdated confirmation ----

  const SLOT := Slot("account", Mxf, "202510")

  /** Long two lots at the start, flat when asked, and a fill for the close. */
  const COURSE := Course("r", "t", SLOT, Answers(2, 0, true, true, 2, 0, false, 0),
      Answers(0, 0, true, true, 0, 0, false, 0),
                         FillReport(2, 100.0, 1, 0), FillReport(2, 100.0, 1, 0))

  /** Somebody else buys one lot. */
  const FOREIGN := Request(SLOT, Buy, 1, "other", "other", "other")

  const ONE_LOT: Execution := FillReport(1, 100.0, 1, 0)

  /** The broker would answer one lot long by then. */
  const LATER := Answers(1, 1, true, true, 1, 1, false, 0)

  /** The process dies right after the flat position was stored as confirmed; somebody else's order fills; then
      the workflow is resumed. */
  function OutdatedRun(): (r: seq<Step>)
    ensures |r| == 6
  {
    [StartStep(COURSE), FillStep(0, COURSE.closing), Transition(0, Filled, COURSE.flat, 2),
     OtherStep(), FillStep(1, ONE_LOT), Resume(_ => LATER, 4)]
  }

  function OtherStep(): Step {
    Elsewhere(ManagerProofs.SubmitOp(FOREIGN, Env(0, 0, false, 3)))
  }

  lemma CourseIsClear()
    ensures Clear(EMPTY, COURSE) && SideOf(COURSE) == Sell
  {
  }

  function Confirmed(): Flow {
    Submitted(COURSE, 0).(state := FlatConfirmed)
  }

  function ConfirmedWorld(): World {
    var b := CloseFilledBook(EMPTY, COURSE);
    World(b.(trace := b.trace + [Queried("r", 0, false, true, true)]), [Confirmed()], map[0 := 0])
  }

  /** Cut after two writes: the close is stored as filled, the flat position as confirmed, and nothing is sent. */
  lemma CutAfterConfirmed()
    ensures OnTransition(CloseDone(EMPTY, COURSE), 0, Filled, COURSE.flat, 2).world == ConfirmedWorld()
  {
    CourseIsClear();
    SlotIsFree(EMPTY, COURSE);
    hide HasActive, FindKey, CloseKey, EntryKey, StartTrace, CloseRow, OnTransition, Clear;
    var w := CloseDone(EMPTY, COURSE);
    assert w.flows == [Submitted(COURSE, 0)] && w.tracked == map[0 := 0];
    ConfirmedThenCut(w, 0, COURSE.flat);
    assert w.flows[0 := Confirmed()] == [Confirmed()];
  }

  /** Two writes: the close is stored as filled, the flat position as confirmed. */
  lemma ConfirmedThenCut(w: World, order: nat, a: Answers)
    requires Follows(w, order) && FlatNow(a, HasActive(w.book.orders, w.flows[w.tracked[order]].slot))
    requires w.flows[w.tracked[order]].state == CloseSubmitted && w.flows[w.tracked[order]].closeId == Some(order)
    ensures var i := w.tracked[order];
            var f := w.flows[i];
            OnTransition(w, order, Filled, a, 2).world
              == World(w.book.(trace := w.book.trace + [Queried(f.id, 0, false, true, true)]),
                  w.flows[i := f.(state := FlatConfirmed)], w.tracked)
  {
    hide HasActive, SubmitLeg;
    var i := w.tracked[order];
    var f := w.flows[i];
    var w1 := w.(flows := w.flows[i := f.(state := CloseFilled)]);
    var w2 := World(w.book.(trace := w.book.trace + [Queried(f.id, 0, false, true, true)]),
        w.flows[i := f.(state := FlatConfirmed)], w.tracked);
    NoEffectsNoOrder(w2, i, a);
    hide FromFlat;
    assert w1.flows[i := f.(state := FlatConfirmed)] == w2.flows;
    assert FromCloseFilled(w1, i, a, 1) == FromFlat(w2, i, a, 0);
  }

  lemma NoEffectsNoOrder(w: World, i: nat, a: Answers)
    requires i < |w.flows|
    ensures FromFlat(w, i, a, 0).world == w
  {
    hide Leg, FindKey, WorstCase, Blank;
  }

  function ForeignWorld(): World {
    var w := ConfirmedWorld();
    var sent := SentBook(w.book, FOREIGN, 0);
    w.(book := Book(w.book.orders + [FilledRow(NewIntent(FOREIGN, 0).(status := Submitting), ONE_LOT)], sent.trace
        + [Wrote(1, Filled)]))
  }

  lemma ForeignFills()
    ensures Submit(ConfirmedWorld().book, FOREIGN, Env(0, 0, false, 3)).book
        == SentBook(ConfirmedWorld().book, FOREIGN, 0)
    ensures Incoming(SentBook(ConfirmedWorld().book, FOREIGN, 0), 1, Executed(ONE_LOT, 0)) == ForeignWorld().book
  {
    hide Submit, Incoming, ConfirmedWorld, ForeignWorld;
    ForeignIsSent();
    ForeignIsFilled();
  }

  lemma ForeignIsSent()
    ensures Submit(ConfirmedWorld().book, FOREIGN, Env(0, 0, false, 3)).book
        == SentBook(ConfirmedWorld().book, FOREIGN, 0)
  {
    hide StartTrace, CloseRow, Clear, CloseKey, FindKey, HasActive, Blank, Submit, SentBook;
    CourseIsClear();
    SaysSomething("other");
    KeyIsForeign();
    var b, row := ConfirmedWorld().book, FilledRow(CloseRow(COURSE, 0), COURSE.closing);
    assert b.orders == [row];
    RowIsClosed();
    OverRowIsClear(row, "other", SLOT);
    SubmitGoesThrough(b, FOREIGN, Env(0, 0, false, 3));
  }

  lemma RowIsClosed()
    ensures FilledRow(CloseRow(COURSE, 0), COURSE.closing).key == CloseKey("r")
  {
  }

  /** A row that is over leaves every other key and every slot free. */
  lemma OverRowIsClear(o: Intent, key: string, slot: Slot)
    requires o.key != key && Terminal(o.status)
    ensures FindKey([o], key).None? && !HasActive([o], slot)
  {
  }

  lemma ForeignIsFilled()
    ensures Incoming(SentBook(ConfirmedWorld().book, FOREIGN, 0), 1, Executed(ONE_LOT, 0)) == ForeignWorld().book
  {
    hide StartTrace, CloseRow, Clear, CloseKey, Incoming;
    var sent := SentBook(ConfirmedWorld().book, FOREIGN, 0);
    assert sent.orders[1] == NewIntent(FOREIGN, 0).(status := Submitting);
    OneFillCompletes(sent, 1, ONE_LOT, 0);
    assert sent.orders[1 := FilledRow(sent.orders[1], ONE_LOT)] == ForeignWorld().book.orders;
  }

  lemma KeyIsForeign()
    ensures CloseKey("r") != "other" && EntryKey("r") != "other"
  {
    assert |CloseKey("r")| == 7 && |EntryKey("r")| == 7;
  }

  lemma EntryIsAdmissible()
    ensures Admissible(ForeignWorld().book, Leg(Confirmed(), false), 1)
  {
    CourseIsClear();
    SaysSomething("reversal");
    KeyIsForeign();
    KeysDiffer("r", "r");
    var orders := ForeignWorld().book.orders;
    assert orders[0] == FilledRow(CloseRow(COURSE, 0), COURSE.closing) && |orders| == 2;
    assert orders[0].key == CloseKey("r") && orders[1].key == "other";
    hide StartTrace, CloseRow, Clear, CloseKey, EntryKey;
    assert FindKey(orders, EntryKey("r")).None? && !HasActive(orders, SLOT);
  }

  /** Resuming sends the entry straight away. */
  lemma ResumeSendsEntry()
    ensures var r := Resume(_ => LATER, 4);
            var b, v := ForeignWorld().book, Next(ForeignWorld(), r).book;
            v.trace == b.trace + [Wrote(2, Created), Wrote(2, Submitting),
                Called(2, EntryKey("r"), SLOT, Sell, MAX_LOTS)]
  {
    EntryIsAdmissible();
    var w := ForeignWorld();
    var reloaded := w.(tracked := Reloaded(w.flows));
    assert |w.book.orders| == 2 && w.flows == [Confirmed()];
    hide StartTrace, CloseRow, CloseKey, EntryKey, Reloaded, SubmitLeg, Admissible, FilledRow;
    LegGoesThrough(reloaded, 0, false, 1, 0, 4);
    assert ResumeUpTo(reloaded, 0, _ => LATER, 4) == Ran(reloaded, 4, true);
    assert ResumeUpTo(reloaded, 1, _ => LATER, 4) == SubmitLeg(reloaded, 0, false, 1, false, 0, 4);
  }

  lemma OutdatedFirst()
    ensures var steps := OutdatedRun()[..3]; AllAllowed(steps) && Run(steps) == ConfirmedWorld()
  {
    hide Clear, CloseDone, OnTransition, StartStep, FillStep, Run, AllAllowed, ConfirmedWorld;
    CourseIsClear();
    CutAfterConfirmed();
    CloseDoneIsTrue(EMPTY, COURSE);
    EmptyRun();
    CloseRuns([], COURSE);
    var before, cut := [StartStep(COURSE), FillStep(0, COURSE.closing)], Transition(0, Filled, COURSE.flat, 2);
    assert [] + [StartStep(COURSE)] + [FillStep(0, COURSE.closing)] == before;
    RunExtends(before, cut);
    assert before + [cut] == OutdatedRun()[..3];
  }

  lemma EmptyRun()
    ensures AllAllowed([]) && Run([]) == EMPTY
  {
  }

  lemma CloseDoneIsTrue(w: World, p: Course)
    requires p.start.netAtStart != 0
    ensures Truthful(CloseDone(w, p), |w.book.orders|, Filled)
  {
    hide CloseRow, StartTrace;
  }

  lemma OutdatedSecond()
    ensures var steps := OutdatedRun()[..5]; AllAllowed(steps) && Run(steps) == ForeignWorld()
  {
    hide Run, AllAllowed, Submit, Incoming, CloseFilledBook, SentBook, FilledRow, ConfirmedWorld, FillStep, OutdatedRun;
    OutdatedFirst();
    var steps, o, g := OutdatedRun()[..3], OtherStep(), FillStep(1, ONE_LOT);
    OtherIsAllowed();
    RunExtends(steps, o);
    OtherSends();
    OtherFills();
    RunExtends(steps + [o], g);
    OutdatedOrder();
  }

  lemma OutdatedOrder()
    ensures OutdatedRun()[..3] + [OtherStep()] + [FillStep(1, ONE_LOT)] == OutdatedRun()[..5]
  {
  }

  lemma OtherIsAllowed()
    ensures Allowed(ConfirmedWorld(), OtherStep())
  {
    KeyIsForeign();
    hide CloseKey, EntryKey, CloseFilledBook;
  }

  lemma OtherSends()
    ensures Next(ConfirmedWorld(), OtherStep())
        == ConfirmedWorld().(book := SentBook(ConfirmedWorld().book, FOREIGN, 0))
  {
    ForeignFills();
    hide Submit, Incoming, ConfirmedWorld, SentBook, ForeignWorld;
  }

  lemma OtherFills()
    ensures var w := ConfirmedWorld().(book := SentBook(ConfirmedWorld().book, FOREIGN, 0));
            Allowed(w, FillStep(1, ONE_LOT)) && Next(w, FillStep(1, ONE_LOT)) == ForeignWorld()
  {
    ForeignFills();
    hide Submit, Incoming, ConfirmedWorld, SentBook;
  }

  lemma OutdatedSteps()
    ensures AllAllowed(OutdatedRun()) && Run(OutdatedRun()) == Next(ForeignWorld(), Resume(_ => LATER, 4))
  {
    OutdatedSecond();
    var steps, last := OutdatedRun()[..5], OutdatedRun()[5];
    assert steps + [last] == OutdatedRun() && last.Resume?;
    hide Run, AllAllowed, Next, ForeignWorld;
    RunExtends(steps, last);
  }

  /** The entry is called two writes of somebody else's filled order after its query, without asking again: a
      reversal resumed from a stored confirmation enters an account that is no longer flat. */
  lemma OutdatedConfirmationExample()
    ensures AllAllowed(OutdatedRun())
    ensures var trace, n := Run(OutdatedRun()).book.trace, |Run(OutdatedRun()).book.trace|;
            && n == 13 && trace[5] == Queried("r", 0, false, true, true)
            && trace[8] == Called(1, "other", SLOT, Buy, 1) && trace[9] == Wrote(1, Filled)
            && trace[12] == Called(2, EntryKey("r"), SLOT, Sell, MAX_LOTS)
            && (forall k | 5 < k < n :: !trace[k].Queried?)
  {
    OutdatedSteps();
    ResumeSendsEntry();
    hide Run, AllAllowed, OutdatedRun, Next, CloseKey, EntryKey, CloseRow;
    var b := ForeignWorld().book;
    assert |b.trace| == 10 && b.trace[5] == Queried("r", 0, false, true, true);
  }
}
