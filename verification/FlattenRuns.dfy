/** A flatten from its button to its end, from any reachable world. */
module FlattenRuns {
  import opened Domain
  import opened OrderModel
  import opened ManagerModel
  import ManagerProofs
  import opened Legs
  import opened BookGrowth
  import opened FlattenModel
  import opened FlattenProofs
  import opened FlattenProgress

  /** What a flatten meets: the answers at its start and at the end, and the fill of its close. */
  datatype Course = Course(id: string, token: string, slot: Slot, start: Answers, flat: Answers, closing: Execution)

  /** Nothing stands in the way: fresh id and token, a free slot, a known price, a truthful open position, one
      fill, and a flat, healthy account at the end. */
  ghost predicate Clear(w: World, p: Course) {
    && Fresh(w, p.id) && FindTrigger(w.flows, Emergency(p.token)).None? && !HasActiveFlow(w.flows, p.slot)
    && p.slot.instrument == Mxf && !HasActive(w.book.orders, p.slot) && SeriesOf(p.slot) in w.lastPrice
    && p.start.net != 0 && p.start.closeNet == p.start.net && !p.start.raises
    && p.closing.lots == Magnitude(p.start.net)
    && p.flat.netAtFlat == 0 && p.flat.sessionHealthy && p.flat.dataHealthy
  }

  function Submitted(p: Course, row: nat): Flow
    requires p.start.net != 0
  {
    Flow(p.id, Emergency(p.token), p.slot, CloseSubmitted, Some(p.start.net), ClosingSide(p.start.net), Some(row))
  }

  function CloseRow(p: Course): Intent
    requires p.start.net != 0
  {
    NewIntent(Request(p.slot, ClosingSide(p.start.net).value, Magnitude(p.start.net), CloseKey(p.id), p.id, "flatten"),
        p.start.now)
      .(status := Submitting)
  }

  function StartTrace(p: Course, row: nat): seq<Effect>
    requires p.start.net != 0
  {
    [Asked(p.id, p.start.net), Wrote(row, Created), Wrote(row, Submitting),
     Called(row, CloseKey(p.id), p.slot, ClosingSide(p.start.net).value, Magnitude(p.start.net))]
  }

  function CloseOut(w: World, p: Course): World
    requires p.start.net != 0
  {
    var row := |w.book.orders|;
    w.(book := Book(w.book.orders + [CloseRow(p)], w.book.trace + StartTrace(p, row)), flows := w.flows
        + [Submitted(p, row)],
       tracked := w.tracked[row := |w.flows|])
  }

  function CloseDone(w: World, p: Course): World
    requires p.start.net != 0
  {
    var row, out := |w.book.orders|, CloseOut(w, p);
    out.(book := Book(w.book.orders + [FilledRow(CloseRow(p), p.closing)], out.book.trace + [Wrote(row, Filled)]))
  }

  lemma ClearNumbers(w: World, p: Course)
    requires Clear(w, p)
    ensures p.start.net != 0 && p.closing.lots == Magnitude(p.start.net)
    ensures p.flat.netAtFlat == 0 && p.flat.sessionHealthy && p.flat.dataHealthy
  {
  }

  lemma CloseGoesOut(w: World, p: Course, left: nat)
    requires Clear(w, p) && left >= 6
    ensures TriggerEmergency(w, p.id, p.token, p.slot, p.start.net, p.start.net, p.start, left).world == CloseOut(w, p)
  {
    hide Begin, CloseKey, HasActiveFlow, HasActive, FindTrigger;
    assert FindKey(w.book.orders, CloseKey(p.id)).None?;
    BeginSendsClose(w, p.id, Emergency(p.token), p.slot, p.start, left);
  }

  lemma CloseIsDone(w: World, p: Course, delivered: int)
    requires Clear(w, p)
    ensures Incoming(CloseOut(w, p).book, |w.book.orders|, Executed(p.closing, delivered)) == CloseDone(w, p).book
  {
    hide Clear, StartTrace, CloseKey;
    ClearNumbers(w, p);
    var row, b := |w.book.orders|, CloseOut(w, p).book;
    assert b.orders[row] == CloseRow(p);
    OneFillCompletes(b, row, p.closing, delivered);
    assert b.orders[row := FilledRow(CloseRow(p), p.closing)] == CloseDone(w, p).book.orders;
  }

  lemma SlotIsFree(w: World, p: Course)
    requires Clear(w, p)
    ensures !HasActive(CloseDone(w, p).book.orders, p.slot)
  {
    hide CloseKey, FindTrigger, HasActiveFlow, StartTrace;
    var orders := CloseDone(w, p).book.orders;
    assert forall i | 0 <= i < |w.book.orders| :: orders[i] == w.book.orders[i];
    assert !orders[|w.book.orders|].Active();
  }

  lemma RunExtends(s: Settings, steps: seq<Step>, step: Step)
    requires AllAllowed(s, steps) && Allowed(Run(s, steps), s, step)
    ensures AllAllowed(s, steps + [step]) && Run(s, steps + [step]) == Next(Run(s, steps), s, step)
  {
    hide Next, Allowed;
    var all := steps + [step];
    assert all[..|steps|] == steps;
    forall i | 0 <= i < |all| ensures Allowed(Run(s, all[..i]), s, all[i]) {
      if i < |steps| {
        assert all[..i] == steps[..i];
        assert Allowed(Run(s, steps[..i]), s, steps[i]);
      }
    }
  }

  function ButtonStep(p: Course): Step {
    Button(p.id, p.token, p.slot, p.start.net, p.start.net, p.start, 6)
  }

  function FillStep(row: nat, fill: Execution): Step {
    Elsewhere(ManagerProofs.IncomingOp(row, Executed(fill, fill.at)))
  }

  /** The button, the close's fill, and its event. */
  function WholeCourse(p: Course, row: nat): seq<Step> {
    [ButtonStep(p), FillStep(row, p.closing), Transition(row, Filled, p.flat, 2)]
  }

  lemma CloseRuns(s: Settings, steps: seq<Step>, p: Course)
    requires AllAllowed(s, steps) && Clear(Run(s, steps), p)
    ensures var w := Run(s, steps);
            var more := steps + [ButtonStep(p)] + [FillStep(|w.book.orders|, p.closing)];
            AllAllowed(s, more) && Run(s, more) == CloseDone(w, p)
  {
    var w := Run(s, steps);
    hide Run, TriggerEmergency, Incoming, AllAllowed, CloseOut;
    assert Allowed(w, s, ButtonStep(p));
    RunExtends(s, steps, ButtonStep(p));
    CloseGoesOut(w, p, 6);
    hide Clear;
    RunExtends(s, steps + [ButtonStep(p)], FillStep(|w.book.orders|, p.closing));
    CloseIsDone(w, p, p.closing.at);
    ClearNumbers(w, p);
  }

  lemma DoneRuns(s: Settings, steps: seq<Step>, w: World, p: Course)
    requires AllAllowed(s, steps) && Clear(w, p) && Run(s, steps) == CloseDone(w, p)
    ensures var row, b := |w.book.orders|, CloseDone(w, p).book;
            var more := steps + [Transition(row, Filled, p.flat, 2)];
            && AllAllowed(s, more)
            && Run(s, more).flows == w.flows + [Submitted(p, row).(state := Completed)]
            && Run(s, more).book == b.(trace := b.trace + [Queried(p.id, 0, false, true, true)])
  {
    ClearNumbers(w, p);
    SlotIsFree(w, p);
    hide Run, OnTransition, AllAllowed, Clear, CloseRow, StartTrace, HasActive;
    var row, n, done := |w.book.orders|, |w.flows|, CloseDone(w, p);
    assert done.book.orders[row] == FilledRow(CloseRow(p), p.closing);
    assert done.flows[n] == Submitted(p, row) && done.tracked[row] == n;
    RunExtends(s, steps, Transition(row, Filled, p.flat, 2));
    CloseFillDecides(done, row, p.flat, 2);
    assert done.flows[n := Submitted(p, row).(state := Completed)] == w.flows
        + [Submitted(p, row).(state := Completed)];
  }

  /** From any reachable world with a free slot and a known price, a flatten whose close is filled runs to
      completion: exactly one call, and no position left. */
  lemma FlattenCompletes(s: Settings, steps: seq<Step>, p: Course, base: int)
    requires AllAllowed(s, steps) && Clear(Run(s, steps), p)
    requires ManagerProofs.Position(Run(s, steps).book.orders, p.slot, base) == p.start.net
    ensures var w, row := Run(s, steps), |Run(s, steps).book.orders|;
            var more := steps + WholeCourse(p, row);
            var v := Run(s, more);
            && AllAllowed(s, more) && v.flows == w.flows + [Submitted(p, row).(state := Completed)]
            && v.book.trace == w.book.trace + StartTrace(p, row)
                + [Wrote(row, Filled), Queried(p.id, 0, false, true, true)]
            && ManagerProofs.Position(v.book.orders, p.slot, base) == 0
  {
    hide Run, AllAllowed, Clear, StartTrace, CloseKey, ButtonStep, FillStep, Submitted;
    var w, row := Run(s, steps), |Run(s, steps).book.orders|;
    ClearNumbers(w, p);
    CloseRuns(s, steps, p);
    var one, last := steps + [ButtonStep(p)] + [FillStep(row, p.closing)], Transition(row, Filled, p.flat, 2);
    DoneRuns(s, one, w, p);
    PositionAdds(w.book.orders, FilledRow(CloseRow(p), p.closing), p.slot, base);
    assert one + [last] == steps + WholeCourse(p, row);
  }
}
