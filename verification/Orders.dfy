/** One order's lifecycle: the transition table, the shared sequence gate, fills and average price. */
module OrderModel {
  import opened Domain

  datatype Status = Created | Submitting | Acknowledged | PartiallyFilled | Filled | CancelPending | Cancelled
      | Rejected
                  | Unknown

  /** No further transition at all; `Unknown` is not terminal. */
  predicate Terminal(s: Status) {
    s in {Filled, Cancelled, Rejected}
  }

  predicate CanTransition(from: Status, to: Status) {
    match from
    case Created => to in {Submitting, Acknowledged, Rejected, Unknown}
    case Submitting => to in {Acknowledged, Rejected, Cancelled, Unknown}
    case Acknowledged => to in {PartiallyFilled, Filled, CancelPending, Cancelled, Unknown}
    case PartiallyFilled => to in {PartiallyFilled, Filled, CancelPending, Cancelled, Unknown}
    case CancelPending => to in {Cancelled, PartiallyFilled, Filled, Unknown}
    case Unknown => to in {Acknowledged, PartiallyFilled, Filled, Cancelled, Rejected, Unknown}
    case Cancelled | Filled | Rejected => false
  }

  /** One account and contract. */
  datatype Slot = Slot(account: string, instrument: Instrument, contract: string)

  datatype Intent = Intent(key: string, workflow: string, slot: Slot, side: Side, lots: int, status: Status,
      filled: int,
                           avg: Option<real>, lastSeq: Option<int>, updatedAt: int)
  {
    predicate Active() {
      !Terminal(status)
    }

    function Remaining(): int {
      lots - filled
    }

    /** What every record is checked for when it is built. */
    predicate Valid() {
      1 <= lots <= MAX_LOTS && 0 <= filled <= lots && (filled == 0 <==> avg.None?)
    }
  }

  datatype Report = Report(status: Status, seq_: int, at: int)
  datatype FillReport = FillReport(lots: int, price: real, seq_: int, at: int)
  {
    predicate Valid() {
      1 <= lots <= MAX_LOTS && price > 0.0
    }
  }

  type Execution = f: FillReport | f.Valid() witness FillReport(1, 1.0, 0, 0)

  datatype Outcome = Applied(record: Intent) | Ignored | Illegal

  predicate IsNewSeq(r: Intent, s: int) {
    r.lastSeq.None? || s > r.lastSeq.value
  }

  function ApplyReport(r: Intent, report: Report): Outcome {
    if !IsNewSeq(r, report.seq_) then Ignored
    else if !CanTransition(r.status, report.status) then Illegal
    else Applied(r.(status := report.status, updatedAt := report.at, lastSeq := Some(report.seq_)))
  }

  function WeightedAverage(r: Intent, fill: Execution): real
    requires r.filled >= 0
  {
    if r.filled == 0 || r.avg.None? then fill.price
    else (r.avg.value * r.filled as real + fill.price * fill.lots as real) / (r.filled + fill.lots) as real
  }

  /** Legal from any live status, never beyond the ordered quantity. */
  function ApplyFill(r: Intent, fill: Execution): Outcome
    requires r.filled >= 0
  {
    if !IsNewSeq(r, fill.seq_) || Terminal(r.status) || r.filled + fill.lots > r.lots then Ignored
    else
      var now := r.filled + fill.lots;
      Applied(r.(status := if now == r.lots then Filled else PartiallyFilled, filled := now,
                 avg := Some(WeightedAverage(r, fill)), updatedAt := fill.at, lastSeq := Some(fill.seq_)))
  }

  function MarkUnknown(r: Intent, at: int): Intent {
    r.(status := Unknown, updatedAt := at)
  }

  /** A report or a fill, and when it was delivered. */
  datatype Event = Reported(report: Report, delivered: int) | Executed(fill: Execution, delivered: int)

  function Apply(r: Intent, e: Event): Outcome
    requires r.filled >= 0
  {
    match e
    case Reported(report, _) => ApplyReport(r, report)
    case Executed(fill, _) => ApplyFill(r, fill)
  }

  function SeqOf(e: Event): int {
    if e.Reported? then e.report.seq_ else e.fill.seq_
  }

  /** An event reaching the manager: an illegal one parks a live order in `Unknown` at its delivery; on a
      terminal order the handler raises and nothing is written. */
  function Handle(r: Intent, e: Event): Intent
    requires r.filled >= 0
  {
    match Apply(r, e)
    case Applied(after) => after
    case Ignored => r
    case Illegal => if Terminal(r.status) then r else MarkUnknown(r, e.delivered)
  }
}

/** The state machine object that owns one record. */
module OrderMachine {
  import opened Domain
  import opened OrderModel

  class OrderStateMachine {
    var record: Intent

    constructor (intent: Intent)
      ensures record == intent
    {
      record := intent;
    }

    /** Returns false where the source raises. */
    method Transition(to: Status, at: int) returns (ok: bool)
      modifies this
      ensures ok == CanTransition(old(record).status, to)
      ensures record == if ok then old(record).(status := to, updatedAt := at) else old(record)
    {
      ok := CanTransition(record.status, to);
      if ok {
        record := record.(status := to, updatedAt := at);
      }
    }

    method MarkCancelPending(at: int) returns (ok: bool)
      modifies this
      ensures ok == (old(record).status in {Acknowledged, PartiallyFilled})
      ensures record == if ok then old(record).(status := CancelPending, updatedAt := at) else old(record)
    {
      if record.status !in {Acknowledged, PartiallyFilled} {
        return false;
      }
      ok := Transition(CancelPending, at);
    }

    method ToUnknown(at: int) returns (ok: bool)
      modifies this
      ensures ok == !Terminal(old(record).status)
      ensures record == if ok then OrderModel.MarkUnknown(old(record), at) else old(record)
    {
      if Terminal(record.status) {
        return false;
      }
      record := record.(status := Unknown, updatedAt := at);
      ok := true;
    }

    method ApplyOrderReport(report: Report) returns (o: Outcome)
      modifies this
      ensures o == ApplyReport(old(record), report)
      ensures record == if o.Applied? then o.record else old(record)
    {
      if !IsNewSeq(record, report.seq_) {
        return Ignored;
      }
      if !CanTransition(record.status, report.status) {
        return Illegal;
      }
      record := record.(status := report.status, updatedAt := report.at, lastSeq := Some(report.seq_));
      o := Applied(record);
    }

    method ApplyExecution(fill: Execution) returns (o: Outcome)
      requires record.filled >= 0
      modifies this
      ensures o == ApplyFill(old(record), fill)
      ensures record == if o.Applied? then o.record else old(record)
    {
      if !IsNewSeq(record, fill.seq_) || Terminal(record.status) {
        return Ignored;
      }
      var newFilled := record.filled + fill.lots;
      if newFilled > record.lots {
        return Ignored;
      }
      var average := WeightedAverage(record, fill);
      record := record.(status := if newFilled == record.lots then Filled else PartiallyFilled, filled := newFilled,
                        avg := Some(average), updatedAt := fill.at, lastSeq := Some(fill.seq_));
      o := Applied(record);
    }
  }
}

/** What holds of one order over every sequence of reports and fills. */
module OrderProofs {
  import opened Domain
  import opened OrderModel

  function HandleAll(r: Intent, events: seq<Event>): Intent
    requires r.Valid()
    ensures HandleAll(r, events).Valid()
  {
    if events == [] then r else Handle(HandleAll(r, events[..|events| - 1]), events[|events| - 1])
  }

  /** The fills that were applied, in order. */
  function AppliedFills(r: Intent, events: seq<Event>): seq<Execution>
    requires r.Valid()
  {
    if events == [] then []
    else
      var before, e := HandleAll(r, events[..|events| - 1]), events[|events| - 1];
      AppliedFills(r, events[..|events| - 1])
          + (if e.Executed? && ApplyFill(before, e.fill).Applied? then [e.fill] else [])
  }

  function SumLots(fills: seq<Execution>): int {
    if fills == [] then 0 else SumLots(fills[..|fills| - 1]) + fills[|fills| - 1].lots
  }

  function Notional(fills: seq<Execution>): real {
    if fills == [] then 0.0
    else Notional(fills[..|fills| - 1]) + fills[|fills| - 1].price * fills[|fills| - 1].lots as real
  }

  lemma AverageTimesFilled(r: Intent, fill: Execution)
    requires r.Valid() && ApplyFill(r, fill).Applied?
    ensures var after := ApplyFill(r, fill).record;
            after.avg.value * after.filled as real
              == (if r.avg.Some? then r.avg.value * r.filled as real else 0.0) + fill.price * fill.lots as real
  {
    var n := (r.filled + fill.lots) as real;
    if r.filled > 0 {
      var x := r.avg.value * r.filled as real + fill.price * fill.lots as real;
      assert x / n * n == x;
    }
  }

  /** The filled quantity is the sum of the applied fills, never above the order; average times quantity is
      their notional; and a fully filled order is `Filled`. */
  ghost predicate Accounts(r: Intent, fills: seq<Execution>) {
    && r.filled == SumLots(fills) && 0 <= r.filled <= r.lots
    && (if r.avg.Some? then r.avg.value * r.filled as real else 0.0) == Notional(fills)
    && (r.filled == r.lots ==> r.status == Filled)
  }

  lemma AccountsStep(r: Intent, e: Event, fills: seq<Execution>)
    requires r.Valid() && Accounts(r, fills)
    ensures var applied := e.Executed? && ApplyFill(r, e.fill).Applied?;
            Accounts(Handle(r, e), if applied then fills + [e.fill] else fills) && Handle(r, e).lots == r.lots
                && Handle(r, e).side == r.side
  {
    if e.Executed? && ApplyFill(r, e.fill).Applied? {
      AverageTimesFilled(r, e.fill);
      hide WeightedAverage;
      var all := fills + [e.fill];
      assert all[..|all| - 1] == fills;
    } else {
      hide WeightedAverage;
    }
  }

  lemma {:induction false} FillsAreAccounted(r: Intent, events: seq<Event>)
    requires r.Valid() && r.filled == 0
    ensures Accounts(HandleAll(r, events), AppliedFills(r, events))
    ensures HandleAll(r, events).lots == r.lots && HandleAll(r, events).side == r.side
  {
    if events != [] {
      var shorter, e := events[..|events| - 1], events[|events| - 1];
      FillsAreAccounted(r, shorter);
      AccountsStep(HandleAll(r, shorter), e, AppliedFills(r, shorter));
      hide Handle, Accounts, ApplyFill;
      assert AppliedFills(r, shorter) + [] == AppliedFills(r, shorter);
    }
  }

  /** Later in the same lifecycle: the sequence number only grows, fills only grow, terminal is final. */
  ghost predicate Progressed(r: Intent, s: Intent) {
    && s.lots == r.lots && s.side == r.side && s.slot == r.slot && s.key == r.key && s.workflow == r.workflow
    && r.filled <= s.filled
    && (r.lastSeq.Some? ==> s.lastSeq.Some? && r.lastSeq.value <= s.lastSeq.value)
    && (Terminal(r.status) ==> s == r)
  }

  lemma HandleProgresses(r: Intent, e: Event)
    requires r.Valid()
    ensures Progressed(r, Handle(r, e)) && Handle(r, e).Valid()
    ensures Apply(r, e).Applied? ==> IsNewSeq(r, SeqOf(e)) && Handle(r, e).lastSeq == Some(SeqOf(e))
  {
    hide WeightedAverage;
  }

  lemma {:induction false} RunProgresses(r: Intent, events: seq<Event>)
    requires r.Valid()
    ensures Progressed(r, HandleAll(r, events))
  {
    if events != [] {
      RunProgresses(r, events[..|events| - 1]);
      HandleProgresses(HandleAll(r, events[..|events| - 1]), events[|events| - 1]);
      hide Handle;
    }
  }

  lemma {:induction false} HandleSplit(r: Intent, a: seq<Event>, b: seq<Event>)
    requires r.Valid()
    ensures HandleAll(r, a + b) == HandleAll(HandleAll(r, a), b)
  {
    hide Handle;
    if b == [] {
      assert a + b == a;
    } else {
      assert (a + b)[..|a + b| - 1] == a + b[..|b| - 1];
      HandleSplit(r, a, b[..|b| - 1]);
    }
  }

  /** A fill seen before is always a no-op, applied or refused the first time, whatever happened since. */
  lemma FillReplayIsNoop(r: Intent, between: seq<Event>, fill: Execution, t: int, u: int)
    requires r.Valid()
    ensures var after := HandleAll(Handle(r, Executed(fill, t)), between); Handle(after, Executed(fill, u)) == after
  {
    var first := Handle(r, Executed(fill, t));
    HandleProgresses(r, Executed(fill, t));
    RunProgresses(first, between);
    hide WeightedAverage, HandleAll;
  }

  /** A report that was applied, or was already stale, is a no-op ever after. */
  lemma ReportReplayIsNoop(r: Intent, between: seq<Event>, report: Report, t: int, u: int)
    requires r.Valid() && !ApplyReport(r, report).Illegal?
    ensures var after := HandleAll(Handle(r, Reported(report, t)), between); Handle(after, Reported(report, u)) == after
  {
    var first := Handle(r, Reported(report, t));
    HandleProgresses(r, Reported(report, t));
    RunProgresses(first, between);
    hide HandleAll;
  }

  /** The same report or fill, delivered again. */
  predicate Redelivers(e: Event, f: Event) {
    if e.Executed? then f.Executed? && f.fill == e.fill else f.Reported? && f.report == e.report
  }

  /** Inserting such replays anywhere in a run, whenever they are delivered, changes nothing. */
  lemma InsertedReplayChangesNothing(r: Intent, before: seq<Event>, e: Event, between: seq<Event>, f: Event,
                                     rest: seq<Event>)
    requires r.Valid() && Redelivers(e, f) && !Apply(HandleAll(r, before), e).Illegal?
    ensures HandleAll(r, before + [e] + between + [f] + rest) == HandleAll(r, before + [e] + between + rest)
  {
    var s := HandleAll(r, before);
    if e.Executed? {
      FillReplayIsNoop(s, between, e.fill, e.delivered, f.delivered);
    } else {
      ReportReplayIsNoop(s, between, e.report, e.delivered, f.delivered);
    }
    hide Handle;
    assert HandleAll(s, [e]) == Handle(s, e) by {
      assert [e][..0] == [];
    }
    var once := HandleAll(Handle(s, e), between);
    HandleSplit(r, before, [e]);
    HandleSplit(r, before + [e], between);
    HandleSplit(r, before + [e] + between, [f]);
    assert HandleAll(once, [f]) == Handle(once, f) by {
      assert [f][..0] == [];
    }
    HandleSplit(r, before + [e] + between + [f], rest);
    HandleSplit(r, before + [e] + between, rest);
  }

  /** The one exception, exactly: whatever happened since, a report delivered again changes nothing if and only
      if its sequence number has been passed, the order is terminal, or it is illegal and the order was parked
      at that very instant. */
  lemma RedeliveredReport(r: Intent, between: seq<Event>, report: Report, t: int, u: int)
    requires r.Valid()
    ensures var after := HandleAll(Handle(r, Reported(report, t)), between);
            Handle(after, Reported(report, u)) == after <==>
              || !IsNewSeq(after, report.seq_) || Terminal(after.status)
              || (!CanTransition(after.status, report.status) && after.status == Unknown && after.updatedAt == u)
  {
    hide HandleAll;
  }

  /** Delivered again at once: an illegal report parks a live order without using its sequence number, so the
      second delivery changes the order exactly when the status is legal from `Unknown` or the time differs. */
  lemma IllegalReportReplay(r: Intent, report: Report, t: int, u: int)
    requires r.Valid()
    ensures var once := Handle(r, Reported(report, t));
            Handle(once, Reported(report, u)) == once <==>
              !(ApplyReport(r, report).Illegal? && !Terminal(r.status)
                  && (CanTransition(Unknown, report.status) || t != u))
  {
  }

  /** A fill report ahead of its acknowledgement, delivered twice: first parked, then filled. */
  lemma IllegalReplayExample(r: Intent, t: int, u: int)
    requires r.Valid() && r.status == Submitting && r.lastSeq == None
    ensures var report := Report(Filled, 1, 0);
            && Handle(r, Reported(report, t)).status == Unknown
            && Handle(Handle(r, Reported(report, t)), Reported(report, u)).status == Filled
  {
  }

  // ---- filled by report ----

  /** Some report of `Filled` was applied while lots were still open. */
  ghost predicate FilledByReport(r: Intent, events: seq<Event>)
    requires r.Valid()
  {
    exists i :: 0 <= i < |events| && ReportFills(HandleAll(r, events[..i]), events[i])
  }

  predicate ReportFills(r: Intent, e: Event) {
    e.Reported? && e.report.status == Filled && ApplyReport(r, e.report).Applied? && r.filled < r.lots
  }

  lemma {:induction false} ReportFillsLater(r: Intent, events: seq<Event>)
    requires r.Valid() && events != []
    ensures var n := |events| - 1;
            FilledByReport(r, events) <==>
                FilledByReport(r, events[..n]) || ReportFills(HandleAll(r, events[..n]), events[n])
  {
    hide ReportFills, HandleAll;
    var n := |events| - 1;
    var shorter := events[..n];
    if FilledByReport(r, events) {
      var i :| 0 <= i < |events| && ReportFills(HandleAll(r, events[..i]), events[i]);
      if i < n {
        assert shorter[..i] == events[..i] && shorter[i] == events[i];
      }
    }
    if FilledByReport(r, shorter) {
      var i :| 0 <= i < |shorter| && ReportFills(HandleAll(r, shorter[..i]), shorter[i]);
      assert shorter[..i] == events[..i] && shorter[i] == events[i];
    }
  }

  /** An order can be `Filled` with lots open: from a live order with nothing filled, exactly when a report of
      `Filled` was applied while lots were open. The two workflows that wait for the status must therefore ask
      the broker before they rely on it. */
  lemma {:induction false} FilledWithLotsOpen(r: Intent, events: seq<Event>)
    requires r.Valid() && r.filled == 0 && !Terminal(r.status)
    ensures var after := HandleAll(r, events);
            after.status == Filled && after.filled < after.lots <==> FilledByReport(r, events)
  {
    if events != [] {
      var n := |events| - 1;
      var before := HandleAll(r, events[..n]);
      FilledWithLotsOpen(r, events[..n]);
      FillsAreAccounted(r, events[..n]);
      ReportFillsLater(r, events);
      hide FilledByReport, WeightedAverage, SumLots, Notional, AppliedFills;
      StepToFilled(before, events[n]);
      hide Handle, ReportFills;
    }
  }

  lemma StepToFilled(r: Intent, e: Event)
    requires r.Valid() && (r.filled == r.lots ==> r.status == Filled)
    ensures var after := Handle(r, e);
            after.status == Filled && after.filled < after.lots <==>
                (r.status == Filled && r.filled < r.lots) || ReportFills(r, e)
  {
    hide WeightedAverage;
  }

  /** An acknowledged order with nothing filled, given one report of `Filled`. */
  lemma FilledByReportExample(r: Intent)
    requires r.Valid() && r.status == Acknowledged && r.filled == 0 && r.lastSeq == None
    ensures var after := HandleAll(r, [Reported(Report(Filled, 1, 0), 0)]);
            after.status == Filled && after.filled == 0 && after.Remaining() == r.lots
  {
    assert [Reported(Report(Filled, 1, 0), 0)][..0] == [];
  }
}
