/** What every run of the aggregator on one timeline guarantees. */
module AggregatorProofs {
  import opened Domain
  import opened CalendarModel
  import opened AggregatorModel

  datatype Op = AcceptOp(e: Event) | AdvanceOp(now: int) | MarkOp(start: Option<int>, end: Option<int>)

  function Apply(setup: Setup, s: Agg, op: Op): Step {
    match op
    case AcceptOp(e) => Accept(setup, s, e)
    case AdvanceOp(now) => Advance(setup, s, now)
    case MarkOp(start, end) => Step(MarkIncomplete(s, start, end), [])
  }

  function Run(setup: Setup, ops: seq<Op>): Step {
    if ops == [] then Step(Agg(None, []), [])
    else
      var before := Run(setup, ops[..|ops| - 1]);
      var now := Apply(setup, before.state, ops[|ops| - 1]);
      Step(now.state, before.closed + now.closed)
  }

  /** The boundary resolver is a grid over time. */
  ghost predicate OnGrid(setup: Setup) {
    && (forall t :: setup.resolve(t).Some? ==> setup.resolve(t).value.start <= t < setup.resolve(t).value.end)
    && (forall t, u :: setup.resolve(t).Some? && setup.resolve(u).Some? ==>
          || setup.resolve(t) == setup.resolve(u)
          || setup.resolve(t).value.end <= setup.resolve(u).value.start
          || setup.resolve(u).value.end <= setup.resolve(t).value.start)
  }

  function TimeOf(op: Op): Option<int> {
    match op
    case AcceptOp(e) => if e.Usable() then e.matchedAt else None
    case AdvanceOp(now) => Some(now)
    case MarkOp(_, _) => None
  }

  /** Trades and clock readings share one nondecreasing timeline. */
  ghost predicate Timeline(ops: seq<Op>) {
    forall i, j | 0 <= i < j < |ops| && TimeOf(ops[i]).Some? && TimeOf(ops[j]).Some? ::
      TimeOf(ops[i]).value <= TimeOf(ops[j]).value
  }

  predicate IsTrade(setup: Setup, op: Op) {
    op.AcceptOp? && op.e.Usable() && setup.resolve(op.e.matchedAt.value).Some?
  }

  function BoundaryOf(setup: Setup, op: Op): Boundary
    requires IsTrade(setup, op)
  {
    setup.resolve(op.e.matchedAt.value).value
  }

  // ---- the history, kept in full ----

  function TouchAll(gaps: seq<Gap>, at: int): (r: seq<Gap>)
    ensures |r| == |gaps|
  {
    seq(|gaps|, i requires 0 <= i < |gaps| => Touch(gaps[i], at))
  }

  /** Every gap ever reported, each open one ended by the first trade at or after its start. */
  function Reported(setup: Setup, ops: seq<Op>): seq<Gap> {
    if ops == [] then []
    else
      var earlier, op := Reported(setup, ops[..|ops| - 1]), ops[|ops| - 1];
      if IsTrade(setup, op) then TouchAll(earlier, op.e.matchedAt.value)
      else if op.MarkOp? && op.start.Some? then earlier + [Gap(op.start.value, op.end)]
      else earlier
  }

  /** The trades of one boundary, in order. */
  function TradesIn(setup: Setup, ops: seq<Op>, b: Boundary): seq<Event> {
    if ops == [] then []
    else
      var op := ops[|ops| - 1];
      TradesIn(setup, ops[..|ops| - 1], b) + (if IsTrade(setup, op) && BoundaryOf(setup, op) == b then [op.e] else [])
  }

  /** Of those, the ones that count: not a repeat of, nor older in the same session than, the last counted. */
  function Counted(trades: seq<Event>): (r: seq<Event>)
    ensures trades != [] ==> r != []
  {
    if trades == [] then []
    else
      var earlier, e := Counted(trades[..|trades| - 1]), trades[|trades| - 1];
      if earlier == [] || CountsAfter(earlier[|earlier| - 1], e) then earlier + [e] else earlier
  }

  predicate CountsAfter(last: Event, e: Event) {
    PrintOf(e) != PrintOf(last) && (e.sessionId != last.sessionId || e.sequence > last.sequence)
  }

  function Volume(trades: seq<Event>): int {
    if trades == [] then 0
    else Volume(trades[..|trades| - 1])
          + (if trades[|trades| - 1].quantity.Some? then trades[|trades| - 1].quantity.value else 0)
  }

  /** The batch definition of a bar: first, highest, lowest, last price and total volume of its trades. */
  ghost predicate Summarizes(trades: seq<Event>, open: real, high: real, low: real, close: real, volume: int) {
    && trades != [] && (forall e | e in trades :: e.Usable())
    && trades[0].price == Some(open) && trades[|trades| - 1].price == Some(close)
    && (exists e :: e in trades && e.price == Some(high)) && (forall e | e in trades :: e.price.value <= high)
    && (exists e :: e in trades && e.price == Some(low)) && (forall e | e in trades :: e.price.value >= low)
    && volume == Volume(trades)
  }

  /** What the forming bar records of the trades it counted. */
  ghost predicate Records(f: Forming, trades: seq<Event>) {
    && Summarizes(trades, f.open, f.high, f.low, f.close, f.volume)
    && trades != []
    && var last := trades[|trades| - 1];
       && f.lastPrint == PrintOf(last) && f.lastSequence == last.sequence && f.lastSession == last.sessionId
       && last.total == Some(f.lastTotal)
       && (exists e :: e in trades && e.sequence == f.firstSequence)
           && (forall e | e in trades :: f.firstSequence <= e.sequence)
       && (f.complete ==> forall e | e in trades :: e.sessionId == last.sessionId)
  }

  lemma BeginRecords(b: Boundary, e: Event, complete: bool)
    requires e.Usable()
    ensures Records(Begin(b, e, complete), [e])
  {
    assert [e][..0] == [];
    assert Volume([e]) == Volume([]) + e.quantity.value;
    assert e in [e];
  }

  lemma MergeSummarizes(f: Forming, trades: seq<Event>, e: Event)
    requires Summarizes(trades, f.open, f.high, f.low, f.close, f.volume) && e.Usable()
    ensures var g := Merge(f, e); Summarizes(trades + [e], g.open, g.high, g.low, g.close, g.volume)
  {
    var all := trades + [e];
    assert all[..|all| - 1] == trades;
    assert Volume(all) == Volume(trades) + e.quantity.value;
    assert e in all && forall x | x in trades :: x in all;
    var h :| h in trades && h.price == Some(f.high);
    var l :| l in trades && l.price == Some(f.low);
    assert h in all && l in all;
  }

  lemma MergeRecords(f: Forming, trades: seq<Event>, e: Event)
    requires Records(f, trades) && trades != [] && e.Usable() && CountsAfter(trades[|trades| - 1], e)
    ensures Records(Merge(f, e), trades + [e])
  {
    hide Summarizes, PrintOf, Volume;
    MergeSummarizes(f, trades, e);
    var all, g := trades + [e], Merge(f, e);
    var first :| first in trades && first.sequence == f.firstSequence;
    assert trades[|trades| - 1] in trades && e in all && first in all;
    assert all[|all| - 1] == e;
    assert forall x | x in all :: x in trades || x == e;
    assert g.firstSequence == (if e.sequence < f.firstSequence then e.sequence else f.firstSequence);
  }

  lemma DoubtKeepsRecords(f: Forming, trades: seq<Event>)
    requires Records(f, trades)
    ensures Records(f.(complete := false), trades)
  {
    hide Summarizes;
  }

  /** One more trade of the same boundary keeps the batch definition. */
  lemma ExtendRecords(f: Forming, trades: seq<Event>, e: Event, review: bool)
    requires Records(f, Counted(trades)) && e.Usable() && trades != []
    ensures Records(Extend(f, f.boundary, e, review), Counted(trades + [e]))
  {
    hide Records, Merge, Counted, PrintOf;
    var counted := Counted(trades);
    CountedNext(trades, e);
    RecordsLast(f, counted);
    var last := counted[|counted| - 1];
    var reviewed := if review then f.(complete := false) else f;
    DoubtKeepsRecords(f, counted);
    DoubtKeepsRecords(reviewed, counted);
    if CountsAfter(last, e) {
      MergeRecords(reviewed, counted, e);
    }
  }

  lemma CountedNext(trades: seq<Event>, e: Event)
    requires trades != []
    ensures var counted := Counted(trades);
            counted != [] && Counted(trades + [e]) == if CountsAfter(counted[|counted| - 1], e) then counted + [e]
                else counted
  {
    assert (trades + [e])[..|trades|] == trades;
  }

  lemma RecordsLast(f: Forming, trades: seq<Event>)
    requires Records(f, trades)
    ensures trades != []
    ensures var last := trades[|trades| - 1];
            f.lastPrint == PrintOf(last) && f.lastSequence == last.sequence && f.lastSession == last.sessionId
  {
    hide Summarizes, PrintOf;
  }

  // ---- the invariant ----

  /** Only gaps that ended before the mark have been forgotten; before any trade, none has. */
  ghost predicate GapsKnown(gaps: seq<Gap>, reported: seq<Gap>, mark: Option<int>) {
    forall i | 0 <= i < |reported| ::
      reported[i] in gaps || (mark.Some? && reported[i].end.Some? && reported[i].end.value < mark.value)
  }

  lemma {:induction false} UpdateKeeps(gaps: seq<Gap>, at: int, start: int, g: Gap)
    requires g in gaps && (g.end.None? || g.end.value >= start)
    ensures Touch(g, at) in UpdateGaps(gaps, at, start)
  {
    var last, rest := gaps[|gaps| - 1], gaps[..|gaps| - 1];
    if g != last {
      assert g in rest;
      UpdateKeeps(rest, at, start, g);
    }
  }

  lemma UpdateKeepsKnown(gaps: seq<Gap>, reported: seq<Gap>, mark: Option<int>, at: int, start: int)
    requires GapsKnown(gaps, reported, mark) && (mark.Some? ==> mark.value <= start)
    ensures GapsKnown(UpdateGaps(gaps, at, start), TouchAll(reported, at), Some(start))
  {
    forall i | 0 <= i < |reported|
      ensures var g := TouchAll(reported, at)[i];
          g in UpdateGaps(gaps, at, start) || (g.end.Some? && g.end.value < start)
    {
      var g := reported[i];
      if g in gaps && (g.end.None? || g.end.value >= start) {
        UpdateKeeps(gaps, at, start, g);
      }
    }
  }

  /** A bar still complete overlaps no reported gap and began after recording did. */
  ghost predicate Clean(setup: Setup, f: Forming, reported: seq<Gap>) {
    f.complete ==>
      && (forall i | 0 <= i < |reported| :: !Overlaps(reported[i], f.boundary))
      && (setup.startedAt.Some? ==> setup.startedAt.value <= f.boundary.start)
  }

  lemma FreshIsClean(setup: Setup, gaps: seq<Gap>, reported: seq<Gap>, b: Boundary, e: Event)
    requires GapsKnown(gaps, reported, Some(b.start)) && e.Usable()
    ensures Clean(setup, Begin(b, e, !NeedsReview(setup, gaps, b)), reported)
  {
    if !NeedsReview(setup, gaps, b) {
      forall i | 0 <= i < |reported| ensures !Overlaps(reported[i], b) {
        if reported[i] in gaps {
          var j :| 0 <= j < |gaps| && gaps[j] == reported[i];
          assert !Overlaps(gaps[j], b);
        }
      }
    }
  }

  lemma TouchKeepsClean(setup: Setup, f: Forming, reported: seq<Gap>, at: int)
    requires Clean(setup, f, reported) && f.boundary.start <= at
    ensures Clean(setup, f, TouchAll(reported, at))
  {
    if f.complete {
      forall i | 0 <= i < |reported| ensures !Overlaps(TouchAll(reported, at)[i], f.boundary) {
        assert !Overlaps(reported[i], f.boundary);
      }
    }
  }

  function LastBoundary(setup: Setup, ops: seq<Op>): Option<Boundary> {
    if ops == [] then None
    else if IsTrade(setup, ops[|ops| - 1]) then Some(BoundaryOf(setup, ops[|ops| - 1]))
    else LastBoundary(setup, ops[..|ops| - 1])
  }

  function MarkOf(last: Option<Boundary>): Option<int> {
    if last.None? then None else Some(last.value.start)
  }

  /** Some trade or clock reading has reached `t`. */
  ghost predicate Reached(ops: seq<Op>, t: int) {
    exists i :: 0 <= i < |ops| && TimeOf(ops[i]).Some? && TimeOf(ops[i]).value >= t
  }

  function BoundaryOfClosed(c: Closed): Boundary {
    Boundary(c.bar.start, c.bar.end, c.tradingDay, c.session)
  }

  ghost predicate OnTheGrid(setup: Setup, b: Boundary) {
    b.start < b.end && exists t :: setup.resolve(t) == Some(b)
  }

  /** The smallest sequence number, and that of the last trade. */
  ghost predicate Numbered(trades: seq<Event>, first: int, last: int) {
    && trades != [] && trades[|trades| - 1].sequence == last
    && (exists e :: e in trades && e.sequence == first) && (forall e | e in trades :: first <= e.sequence)
  }

  /** A closed bar is the batch bar of every trade of its boundary so far. */
  ghost predicate IsBatch(setup: Setup, ops: seq<Op>, c: Closed) {
    && c.bar.instrument == setup.instrument && c.bar.contract == setup.contract
    && Summarizes(Counted(TradesIn(setup, ops, BoundaryOfClosed(c))), c.bar.open, c.bar.high, c.bar.low, c.bar.close,
        c.bar.volume)
    && Numbered(Counted(TradesIn(setup, ops, BoundaryOfClosed(c))), c.firstSequence, c.lastSequence)
  }

  ghost predicate ClosedWell(setup: Setup, ops: seq<Op>, closed: seq<Closed>) {
    && (forall i | 0 <= i < |closed| :: IsBatch(setup, ops, closed[i]) && Reached(ops, closed[i].bar.end)
                                        && OnTheGrid(setup, BoundaryOfClosed(closed[i])))
    && (forall i, j | 0 <= i < j < |closed| :: closed[i].bar.end <= closed[j].bar.start)
  }

  ghost predicate FormedWell(setup: Setup, ops: seq<Op>, f: Forming) {
    && LastBoundary(setup, ops) == Some(f.boundary)
    && Clean(setup, f, Reported(setup, ops))
    && Records(f, Counted(TradesIn(setup, ops, f.boundary)))
  }

  ghost predicate Good(setup: Setup, ops: seq<Op>, r: Step) {
    var last := LastBoundary(setup, ops);
    && GapsKnown(r.state.gaps, Reported(setup, ops), MarkOf(last))
    && ClosedWell(setup, ops, r.closed)
    && (r.state.forming.Some? ==>
          && FormedWell(setup, ops, r.state.forming.value)
          && (forall i | 0 <= i < |r.closed| :: r.closed[i].bar.end <= r.state.forming.value.boundary.start))
    && (r.state.forming.None? && last.Some? ==> Reached(ops, last.value.end))
    && (forall i | 0 <= i < |ops| && IsTrade(setup, ops[i]) ::
          last.Some? && (BoundaryOf(setup, ops[i]) == last.value || BoundaryOf(setup, ops[i]).end <= last.value.start))
    && (last.Some? ==> OnTheGrid(setup, last.value) && Reached(ops, last.value.start))
  }

  // ---- every step keeps it ----

  lemma StillReached(ops: seq<Op>, op: Op, t: int)
    ensures Reached(ops, t) ==> Reached(ops + [op], t)
    ensures TimeOf(op).Some? && TimeOf(op).value >= t ==> Reached(ops + [op], t)
  {
    if Reached(ops, t) {
      var i :| 0 <= i < |ops| && TimeOf(ops[i]).Some? && TimeOf(ops[i]).value >= t;
      assert (ops + [op])[i] == ops[i];
    }
    assert (ops + [op])[|ops|] == op;
  }

  lemma TimeHasCome(ops: seq<Op>, op: Op, t: int)
    requires Timeline(ops + [op]) && Reached(ops, t) && TimeOf(op).Some?
    ensures TimeOf(op).value >= t
  {
    var i :| 0 <= i < |ops| && TimeOf(ops[i]).Some? && TimeOf(ops[i]).value >= t;
    assert (ops + [op])[i] == ops[i] && (ops + [op])[|ops|] == op;
  }

  lemma {:induction false} NoTradesIn(setup: Setup, ops: seq<Op>, b: Boundary)
    requires forall i | 0 <= i < |ops| && IsTrade(setup, ops[i]) :: BoundaryOf(setup, ops[i]) != b
    ensures TradesIn(setup, ops, b) == []
  {
    if ops != [] {
      NoTradesIn(setup, ops[..|ops| - 1], b);
    }
  }

  lemma {:induction false} SomeTradesIn(setup: Setup, ops: seq<Op>, b: Boundary)
    requires LastBoundary(setup, ops) == Some(b)
    ensures TradesIn(setup, ops, b) != []
  {
    if !IsTrade(setup, ops[|ops| - 1]) {
      SomeTradesIn(setup, ops[..|ops| - 1], b);
    }
  }

  /** An operation that is no trade of `b` leaves the batch of `b` alone. */
  lemma SameTrades(setup: Setup, ops: seq<Op>, op: Op, b: Boundary)
    requires !IsTrade(setup, op) || BoundaryOf(setup, op) != b
    ensures TradesIn(setup, ops + [op], b) == TradesIn(setup, ops, b)
  {
    assert (ops + [op])[..|ops|] == ops;
  }

  lemma ClosedStays(setup: Setup, ops: seq<Op>, op: Op, closed: seq<Closed>)
    requires OnGrid(setup) && Timeline(ops + [op]) && ClosedWell(setup, ops, closed)
    ensures ClosedWell(setup, ops + [op], closed)
    ensures IsTrade(setup, op) ==> forall i | 0 <= i < |closed| :: closed[i].bar.end <= BoundaryOf(setup, op).start
  {
    hide Summarizes, Counted, TradesIn;
    forall i | 0 <= i < |closed|
      ensures IsBatch(setup, ops + [op], closed[i]) && Reached(ops + [op], closed[i].bar.end)
      ensures IsTrade(setup, op) ==> closed[i].bar.end <= BoundaryOf(setup, op).start
    {
      var b := BoundaryOfClosed(closed[i]);
      StillReached(ops, op, closed[i].bar.end);
      if IsTrade(setup, op) {
        TimeHasCome(ops, op, closed[i].bar.end);
        GridAfter(setup, b, op);
      }
      SameTrades(setup, ops, op, b);
    }
  }

  /** A trade at or after the end of a grid boundary lies in a later one. */
  lemma GridAfter(setup: Setup, b: Boundary, op: Op)
    requires OnGrid(setup) && OnTheGrid(setup, b) && IsTrade(setup, op) && op.e.matchedAt.value >= b.end
    ensures b.end <= BoundaryOf(setup, op).start && BoundaryOf(setup, op) != b
  {
    var t :| setup.resolve(t) == Some(b);
  }

  /** A trade not before a grid boundary lies in it or in a later one. */
  lemma GridFrom(setup: Setup, b: Boundary, op: Op)
    requires OnGrid(setup) && OnTheGrid(setup, b) && IsTrade(setup, op) && op.e.matchedAt.value >= b.start
    ensures BoundaryOf(setup, op) == b || b.end <= BoundaryOf(setup, op).start
    ensures op.e.matchedAt.value < b.end ==> BoundaryOf(setup, op) == b
  {
    var t :| setup.resolve(t) == Some(b);
  }

  lemma CloseIsWell(setup: Setup, ops: seq<Op>, closed: seq<Closed>, f: Forming)
    requires ClosedWell(setup, ops, closed) && OnTheGrid(setup, f.boundary) && Reached(ops, f.boundary.end)
    requires Records(f, Counted(TradesIn(setup, ops, f.boundary)))
    requires forall i | 0 <= i < |closed| :: closed[i].bar.end <= f.boundary.start
    ensures ClosedWell(setup, ops, closed + [CloseOf(setup, f)])
  {
    hide Summarizes, Counted, TradesIn, Reached;
    var c := CloseOf(setup, f);
    assert BoundaryOfClosed(c) == f.boundary;
    assert IsBatch(setup, ops, c);
  }

  lemma MarkStep(setup: Setup, ops: seq<Op>, r: Step, op: Op)
    requires OnGrid(setup) && Good(setup, ops, r) && Timeline(ops + [op]) && op.MarkOp?
    ensures Good(setup, ops + [op], Step(MarkIncomplete(r.state, op.start, op.end), r.closed))
  {
    hide Summarizes, Counted, TradesIn, Reached, Records, ClosedWell, OnTheGrid;
    assert (ops + [op])[..|ops|] == ops;
    GoodClosed(setup, ops, r);
    ClosedStays(setup, ops, op, r.closed);
    var last := LastBoundary(setup, ops);
    assert LastBoundary(setup, ops + [op]) == last;
    if last.Some? {
      StillReached(ops, op, last.value.start);
      StillReached(ops, op, last.value.end);
    }
    if r.state.forming.Some? {
      var f := r.state.forming.value;
      SameTrades(setup, ops, op, f.boundary);
      DoubtKeepsRecords(f, Counted(TradesIn(setup, ops, f.boundary)));
      MarkKeepsForming(setup, ops, r.state, op);
    }
    MarkKeepsGaps(setup, ops, r.state, op);
    hide GapsKnown, FormedWell, Reported;
  }

  lemma MarkKeepsGaps(setup: Setup, ops: seq<Op>, s: Agg, op: Op)
    requires op.MarkOp? && GapsKnown(s.gaps, Reported(setup, ops), MarkOf(LastBoundary(setup, ops)))
    ensures GapsKnown(MarkIncomplete(s, op.start, op.end).gaps, Reported(setup, ops + [op]),
        MarkOf(LastBoundary(setup, ops)))
  {
    hide LastBoundary;
    assert (ops + [op])[..|ops|] == ops;
    var gaps, was := MarkIncomplete(s, op.start, op.end).gaps, Reported(setup, ops);
    assert forall g | g in s.gaps :: g in gaps;
    if op.start.Some? {
      assert gaps[|gaps| - 1] == Gap(op.start.value, op.end);
    }
  }

  lemma MarkKeepsForming(setup: Setup, ops: seq<Op>, s: Agg, op: Op)
    requires op.MarkOp? && s.forming.Some? && FormedWell(setup, ops, s.forming.value)
    requires var trades := Counted(TradesIn(setup, ops + [op], s.forming.value.boundary));
             Records(s.forming.value, trades) && Records(s.forming.value.(complete := false), trades)
    ensures var f := MarkIncomplete(s, op.start, op.end).forming;
            f.Some? && f.value.boundary == s.forming.value.boundary && FormedWell(setup, ops + [op], f.value)
  {
    hide Records, Counted, TradesIn;
    assert (ops + [op])[..|ops|] == ops;
  }

  lemma IdleStep(setup: Setup, ops: seq<Op>, r: Step, op: Op)
    requires OnGrid(setup) && Good(setup, ops, r) && Timeline(ops + [op]) && !op.MarkOp? && !IsTrade(setup, op)
    ensures Good(setup, ops + [op], r)
  {
    hide Summarizes, Counted, TradesIn, Reached, Records;
    assert (ops + [op])[..|ops|] == ops;
    ClosedStays(setup, ops, op, r.closed);
    var last := LastBoundary(setup, ops);
    if last.Some? {
      StillReached(ops, op, last.value.start);
      StillReached(ops, op, last.value.end);
    }
    if r.state.forming.Some? {
      SameTrades(setup, ops, op, r.state.forming.value.boundary);
    }
    hide ClosedWell;
  }

  lemma ClockStep(setup: Setup, ops: seq<Op>, r: Step, op: Op)
    requires OnGrid(setup) && Good(setup, ops, r) && Timeline(ops + [op]) && op.AdvanceOp?
    ensures var step := Advance(setup, r.state, op.now);
        Good(setup, ops + [op], Step(step.state, r.closed + step.closed))
  {
    hide Good, CloseOf, Counted, TradesIn, Records, Reached;
    IdleStep(setup, ops, r, op);
    if Passed(r.state, op.now) {
      var f := r.state.forming.value;
      StillReached(ops, op, f.boundary.end);
      CloseKeepsGood(setup, ops + [op], r);
    } else {
      assert r.closed + [] == r.closed;
    }
  }

  /** Emitting the forming bar once its end is reached. */
  lemma CloseKeepsGood(setup: Setup, ops: seq<Op>, r: Step)
    requires Good(setup, ops, r) && r.state.forming.Some? && Reached(ops, r.state.forming.value.boundary.end)
    ensures Good(setup, ops, Step(r.state.(forming := None), r.closed + [CloseOf(setup, r.state.forming.value)]))
  {
    hide Counted, TradesIn, Records, Reached, ClosedWell, Clean, GapsKnown, Reported, OnTheGrid, CloseOf;
    CloseIsWell(setup, ops, r.closed, r.state.forming.value);
    hide FormedWell;
  }

  /** The first trade of a boundary begins its bar. */
  lemma BeginsWell(setup: Setup, ops: seq<Op>, op: Op, gaps: seq<Gap>)
    requires IsTrade(setup, op) && TradesIn(setup, ops, BoundaryOf(setup, op)) == []
    requires GapsKnown(gaps, Reported(setup, ops + [op]), Some(BoundaryOf(setup, op).start))
    ensures var b := BoundaryOf(setup, op); FormedWell(setup, ops + [op], Begin(b, op.e, !NeedsReview(setup, gaps, b)))
  {
    hide Records, Clean, Reported, GapsKnown, NeedsReview, Begin;
    var b, complete := BoundaryOf(setup, op), !NeedsReview(setup, gaps, BoundaryOf(setup, op));
    FirstTrade(setup, ops, op);
    hide TradesIn, Counted;
    FreshIsClean(setup, gaps, Reported(setup, ops + [op]), b, op.e);
    BeginRecords(b, op.e, complete);
    BeginsAt(b, op.e, complete);
  }

  lemma FirstTrade(setup: Setup, ops: seq<Op>, op: Op)
    requires IsTrade(setup, op) && TradesIn(setup, ops, BoundaryOf(setup, op)) == []
    ensures Counted(TradesIn(setup, ops + [op], BoundaryOf(setup, op))) == [op.e]
  {
    assert (ops + [op])[..|ops|] == ops;
    assert [op.e][..0] == [];
  }

  /** A further trade of the boundary extends it. */
  lemma ExtendsWell(setup: Setup, ops: seq<Op>, op: Op, f: Forming, review: bool)
    requires IsTrade(setup, op) && BoundaryOf(setup, op) == f.boundary && FormedWell(setup, ops, f)
    requires f.boundary.start <= op.e.matchedAt.value
    ensures FormedWell(setup, ops + [op], Extend(f, f.boundary, op.e, review))
  {
    hide Records, Counted, Extend, Touch, TouchAll, Reported, TradesIn;
    var trades := TradesIn(setup, ops, f.boundary);
    NextTrade(setup, ops, op);
    SomeTradesIn(setup, ops, f.boundary);
    ExtendRecords(f, trades, op.e, review);
    TouchKeepsClean(setup, f, Reported(setup, ops), op.e.matchedAt.value);
    ExtendKeepsBoundary(f, f.boundary, op.e, review);
  }

  lemma NextTrade(setup: Setup, ops: seq<Op>, op: Op)
    requires IsTrade(setup, op)
    ensures var b := BoundaryOf(setup, op); TradesIn(setup, ops + [op], b) == TradesIn(setup, ops, b) + [op.e]
    ensures Reported(setup, ops + [op]) == TouchAll(Reported(setup, ops), op.e.matchedAt.value)
    ensures LastBoundary(setup, ops + [op]) == Some(BoundaryOf(setup, op))
  {
    hide TouchAll;
    assert (ops + [op])[..|ops|] == ops;
  }

  /** No earlier trade lies in a boundary that a trade opens. */
  lemma OpensFresh(setup: Setup, ops: seq<Op>, r: Step, op: Op)
    requires OnGrid(setup) && Good(setup, ops, r) && Timeline(ops + [op]) && IsTrade(setup, op)
    requires r.state.forming.None? || Passed(r.state, op.e.matchedAt.value)
    ensures TradesIn(setup, ops, BoundaryOf(setup, op)) == []
  {
    hide Summarizes, Counted, TradesIn, Records, Clean, ClosedWell;
    var b, last := BoundaryOf(setup, op), LastBoundary(setup, ops);
    if last.Some? {
      if r.state.forming.None? {
        TimeHasCome(ops, op, last.value.end);
      }
      GridAfter(setup, last.value, op);
    }
    NoTradesIn(setup, ops, b);
  }

  lemma TradeKeepsGaps(setup: Setup, ops: seq<Op>, r: Step, op: Op)
    requires OnGrid(setup) && Good(setup, ops, r) && Timeline(ops + [op]) && IsTrade(setup, op)
    ensures var b := BoundaryOf(setup, op);
            var last := LastBoundary(setup, ops);
            && GapsKnown(UpdateGaps(r.state.gaps, op.e.matchedAt.value, b.start), Reported(setup, ops + [op]),
                Some(b.start))
            && (last.Some? ==> last.value == b || last.value.end <= b.start)
  {
    hide Summarizes, Counted, TradesIn, Records, Clean, ClosedWell;
    assert (ops + [op])[..|ops|] == ops;
    var b, last := BoundaryOf(setup, op), LastBoundary(setup, ops);
    if last.Some? {
      TimeHasCome(ops, op, last.value.start);
      GridFrom(setup, last.value, op);
    }
    UpdateKeepsKnown(r.state.gaps, Reported(setup, ops), MarkOf(last), op.e.matchedAt.value, b.start);
  }

  lemma TradeHistory(setup: Setup, ops: seq<Op>, r: Step, op: Op)
    requires OnGrid(setup) && Good(setup, ops, r) && Timeline(ops + [op]) && IsTrade(setup, op)
    ensures var b := BoundaryOf(setup, op);
            && LastBoundary(setup, ops + [op]) == Some(b) && OnTheGrid(setup, b) && Reached(ops + [op], b.start)
            && (forall i | 0 <= i < |ops + [op]| && IsTrade(setup, (ops + [op])[i]) ::
                  BoundaryOf(setup, (ops + [op])[i]) == b || BoundaryOf(setup, (ops + [op])[i]).end <= b.start)
  {
    hide Summarizes, Counted, TradesIn, Records, Clean, ClosedWell;
    TradeKeepsGaps(setup, ops, r, op);
    hide GapsKnown, UpdateGaps, Reported;
    var all, b := ops + [op], BoundaryOf(setup, op);
    assert all[|all| - 1] == op;
    assert setup.resolve(op.e.matchedAt.value) == Some(b);
    StillReached(ops, op, b.start);
    forall i | 0 <= i < |all| && IsTrade(setup, all[i])
      ensures BoundaryOf(setup, all[i]) == b || BoundaryOf(setup, all[i]).end <= b.start
    {
      if i < |ops| {
        assert all[i] == ops[i];
      }
    }
  }

  lemma TradeExtends(setup: Setup, ops: seq<Op>, r: Step, op: Op)
    requires OnGrid(setup) && Good(setup, ops, r) && Timeline(ops + [op]) && IsTrade(setup, op)
    requires r.state.forming.Some? && op.e.matchedAt.value < r.state.forming.value.boundary.end
    ensures var step := Accept(setup, r.state, op.e); Good(setup, ops + [op], Step(step.state, r.closed + step.closed))
  {
    hide Good, Accept, Summarizes, Counted, TradesIn, Records, Clean, Reached, UpdateGaps, NeedsReview, Reported,
        Extend;
    hide ClosedWell, FormedWell, GapsKnown, OnTheGrid, LastBoundary;
    var at, b := op.e.matchedAt.value, BoundaryOf(setup, op);
    var gaps := UpdateGaps(r.state.gaps, at, b.start);
    var review, f := NeedsReview(setup, gaps, b), r.state.forming.value;
    AcceptExtends(setup, r.state, op.e);
    TradeKeepsGaps(setup, ops, r, op);
    TradeHistory(setup, ops, r, op);
    GoodClosed(setup, ops, r);
    ClosedStays(setup, ops, op, r.closed);
    GoodForming(setup, ops, r);
    TimeHasCome(ops, op, f.boundary.start);
    GridFrom(setup, f.boundary, op);
    ExtendsWell(setup, ops, op, f, review);
    ExtendKeepsBoundary(f, b, op.e, review);
    assert r.closed + [] == r.closed;
    FormingIsGood(setup, ops + [op], Step(Agg(Some(Extend(f, b, op.e, review)), gaps), r.closed));
  }

  /** What is left to show once the last operation was a trade. */
  lemma FormingIsGood(setup: Setup, ops: seq<Op>, r: Step)
    requires r.state.forming.Some? && FormedWell(setup, ops, r.state.forming.value) && ClosedWell(setup, ops, r.closed)
    requires var b := r.state.forming.value.boundary;
             && LastBoundary(setup, ops) == Some(b) && OnTheGrid(setup, b) && Reached(ops, b.start)
             && GapsKnown(r.state.gaps, Reported(setup, ops), Some(b.start))
             && (forall i | 0 <= i < |r.closed| :: r.closed[i].bar.end <= b.start)
             && (forall i | 0 <= i < |ops| && IsTrade(setup, ops[i]) ::
                   BoundaryOf(setup, ops[i]) == b || BoundaryOf(setup, ops[i]).end <= b.start)
    ensures Good(setup, ops, r)
  {
    hide FormedWell, ClosedWell, OnTheGrid, Reached, GapsKnown, Reported, LastBoundary;
  }

  lemma GoodClosed(setup: Setup, ops: seq<Op>, r: Step)
    requires Good(setup, ops, r)
    ensures ClosedWell(setup, ops, r.closed)
  {
    hide FormedWell, ClosedWell, OnTheGrid, Reached, GapsKnown, Reported, LastBoundary;
  }

  lemma AcceptExtends(setup: Setup, s: Agg, e: Event)
    requires IsTrade(setup, AcceptOp(e)) && s.forming.Some? && e.matchedAt.value < s.forming.value.boundary.end
    ensures var b := BoundaryOf(setup, AcceptOp(e));
            var gaps := UpdateGaps(s.gaps, e.matchedAt.value, b.start);
            Accept(setup, s, e) == Step(Agg(Some(Extend(s.forming.value, b, e, NeedsReview(setup, gaps, b))), gaps), [])
  {
    hide Begin, UpdateGaps, NeedsReview, CloseOf, Extend;
  }

  lemma TradeBegins(setup: Setup, ops: seq<Op>, r: Step, op: Op)
    requires OnGrid(setup) && Good(setup, ops, r) && Timeline(ops + [op]) && IsTrade(setup, op)
    requires r.state.forming.None? || Passed(r.state, op.e.matchedAt.value)
    ensures var step := Accept(setup, r.state, op.e); Good(setup, ops + [op], Step(step.state, r.closed + step.closed))
  {
    hide Good, Accept, Summarizes, Counted, TradesIn, Records, Clean, Reached, UpdateGaps, NeedsReview, Reported, Begin;
    hide ClosedWell, FormedWell, GapsKnown, OnTheGrid, LastBoundary, CloseOf;
    var at, b := op.e.matchedAt.value, BoundaryOf(setup, op);
    var gaps := UpdateGaps(r.state.gaps, at, b.start);
    var complete := !NeedsReview(setup, gaps, b);
    AcceptBegins(setup, r.state, op.e);
    ClosingOnTrade(setup, ops, r, op);
    TradeKeepsGaps(setup, ops, r, op);
    TradeHistory(setup, ops, r, op);
    OpensFresh(setup, ops, r, op);
    BeginsWell(setup, ops, op, gaps);
    BeginsAt(b, op.e, complete);
    FormingIsGood(setup, ops + [op],
        Step(Agg(Some(Begin(b, op.e, complete)), gaps), r.closed + ClosedBy(setup, r.state)));
  }

  /** The bar, if any, that a trade past its end closes. */
  function ClosedBy(setup: Setup, s: Agg): seq<Closed> {
    if s.forming.Some? then [CloseOf(setup, s.forming.value)] else []
  }

  lemma AcceptBegins(setup: Setup, s: Agg, e: Event)
    requires IsTrade(setup, AcceptOp(e)) && (s.forming.None? || Passed(s, e.matchedAt.value))
    ensures var b := BoundaryOf(setup, AcceptOp(e));
            var gaps := UpdateGaps(s.gaps, e.matchedAt.value, b.start);
            Accept(setup, s, e) == Step(Agg(Some(Begin(b, e, !NeedsReview(setup, gaps, b))), gaps), ClosedBy(setup, s))
  {
    hide Begin, UpdateGaps, NeedsReview, CloseOf, Extend;
  }

  lemma ClosingOnTrade(setup: Setup, ops: seq<Op>, r: Step, op: Op)
    requires OnGrid(setup) && Good(setup, ops, r) && Timeline(ops + [op]) && IsTrade(setup, op)
    requires r.state.forming.None? || Passed(r.state, op.e.matchedAt.value)
    ensures var closed := r.closed + ClosedBy(setup, r.state);
            && ClosedWell(setup, ops + [op], closed)
            && forall i | 0 <= i < |closed| :: closed[i].bar.end <= BoundaryOf(setup, op).start
  {
    hide Summarizes, Counted, TradesIn, Records, Clean, Reached, Reported, CloseOf;
    ClosedStays(setup, ops, op, r.closed);
    if r.state.forming.Some? {
      var f := r.state.forming.value;
      GoodForming(setup, ops, r);
      GridAfter(setup, f.boundary, op);
      SameTrades(setup, ops, op, f.boundary);
      StillReached(ops, op, f.boundary.end);
      CloseIsWell(setup, ops + [op], r.closed, f);
      ClosesAt(setup, f);
      hide ClosedWell;
    } else {
      assert r.closed + [] == r.closed;
    }
  }

  lemma ClosesAt(setup: Setup, f: Forming)
    ensures CloseOf(setup, f).bar.end == f.boundary.end
  {
  }

  lemma TradeStep(setup: Setup, ops: seq<Op>, r: Step, op: Op)
    requires OnGrid(setup) && Good(setup, ops, r) && Timeline(ops + [op]) && IsTrade(setup, op)
    ensures var step := Accept(setup, r.state, op.e); Good(setup, ops + [op], Step(step.state, r.closed + step.closed))
  {
    hide Good, Accept;
    if r.state.forming.Some? && op.e.matchedAt.value < r.state.forming.value.boundary.end {
      TradeExtends(setup, ops, r, op);
    } else {
      TradeBegins(setup, ops, r, op);
    }
  }

  lemma GoodForming(setup: Setup, ops: seq<Op>, r: Step)
    requires Good(setup, ops, r) && r.state.forming.Some?
    ensures var f := r.state.forming.value;
            && FormedWell(setup, ops, f) && OnTheGrid(setup, f.boundary) && Reached(ops, f.boundary.start)
  {
    hide Summarizes, Counted, TradesIn, Records, Clean, Reached, ClosedWell;
  }

  lemma ExtendKeepsBoundary(f: Forming, b: Boundary, e: Event, review: bool)
    requires e.Usable()
    ensures Extend(f, b, e, review).boundary == f.boundary && (Extend(f, b, e, review).complete ==> f.complete)
  {
  }

  lemma BeginsAt(b: Boundary, e: Event, complete: bool)
    requires e.Usable()
    ensures Begin(b, e, complete).boundary == b
  {
  }

  /** The invariant of every run on one timeline. */
  lemma {:induction false} EveryRunIsGood(setup: Setup, ops: seq<Op>)
    requires OnGrid(setup) && Timeline(ops)
    ensures Good(setup, ops, Run(setup, ops))
  {
    if ops != [] {
      var earlier, op := ops[..|ops| - 1], ops[|ops| - 1];
      assert ops == earlier + [op];
      EveryRunIsGood(setup, earlier);
      var r := Run(setup, earlier);
      hide Good;
      if op.MarkOp? {
        MarkStep(setup, earlier, r, op);
        assert r.closed + [] == r.closed;
      } else if op.AdvanceOp? {
        ClockStep(setup, earlier, r, op);
      } else if IsTrade(setup, op) {
        TradeStep(setup, earlier, r, op);
      } else {
        IdleStep(setup, earlier, r, op);
        assert r.closed + [] == r.closed;
      }
    }
  }

  /** Incremental equals batch: on one timeline every emitted bar has the first, highest, lowest and last
      price and the total volume of all the run's counted trades of its boundary, and emitted boundaries
      are strictly increasing and disjoint. */
  lemma EmittedBarsAreBatches(setup: Setup, ops: seq<Op>)
    requires OnGrid(setup) && Timeline(ops)
    ensures var closed := Run(setup, ops).closed;
            && (forall i | 0 <= i < |closed| :: IsBatch(setup, ops, closed[i]))
            && (forall i, j | 0 <= i < j < |closed| :: closed[i].bar.start < closed[i].bar.end <= closed[j].bar.start)
  {
    EveryRunIsGood(setup, ops);
    hide Run, Summarizes, Counted, TradesIn, Records, Clean, Reached;
  }

  /** A bar that closes complete overlaps no gap reported so far, began no earlier than the recording, and
      counts trades of a single session. */
  lemma CompleteBarsAreSound(setup: Setup, ops: seq<Op>, op: Op)
    requires OnGrid(setup) && Timeline(ops + [op])
    ensures forall c | c in Apply(setup, Run(setup, ops).state, op).closed && c.complete ::
              var b := BoundaryOfClosed(c);
              && (forall i | 0 <= i < |Reported(setup, ops + [op])| :: !Overlaps(Reported(setup, ops + [op])[i], b))
              && (setup.startedAt.Some? ==> setup.startedAt.value <= b.start)
              && (forall e, e' | e in Counted(TradesIn(setup, ops, b)) && e' in Counted(TradesIn(setup, ops, b)) ::
                    e.sessionId == e'.sessionId)
  {
    assert Timeline(ops) by {
      assert forall i | 0 <= i < |ops| :: (ops + [op])[i] == ops[i];
    }
    EveryRunIsGood(setup, ops);
    var r := Run(setup, ops);
    assert (ops + [op])[..|ops|] == ops;
    hide Run, Summarizes, Counted, TradesIn, Reached, Extend, Begin, UpdateGaps, NeedsReview;
    var closed := Apply(setup, r.state, op).closed;
    if closed != [] {
      GoodForming(setup, ops, r);
      var f := r.state.forming.value;
      assert closed == [CloseOf(setup, f)];
      assert BoundaryOfClosed(CloseOf(setup, f)) == f.boundary;
      if IsTrade(setup, op) {
        TouchKeepsClean(setup, f, Reported(setup, ops), op.e.matchedAt.value);
      }
    }
  }
}

/** The trading calendar's search is a grid, so the two parts fit together. */
module CalendarGrid {
  import opened Domain
  import opened CalendarModel
  import opened CalendarProofs
  import opened AggregatorModel
  import opened AggregatorProofs

  lemma CalendarIsGrid(setup: Setup, cal: Calendar, entry: Entry)
    requires entry.Valid() && NonOverlapping(cal, entry)
    requires forall t :: setup.resolve(t) == BoundaryContaining(cal, entry, t)
    ensures OnGrid(setup)
  {
    hide BoundaryContaining;
    forall t | setup.resolve(t).Some? ensures setup.resolve(t).value.start <= t < setup.resolve(t).value.end {
      ContainingIsComplete(cal, entry, t);
    }
    forall t, u | setup.resolve(t).Some? && setup.resolve(u).Some?
      ensures || setup.resolve(t) == setup.resolve(u)
              || setup.resolve(t).value.end <= setup.resolve(u).value.start
              || setup.resolve(u).value.end <= setup.resolve(t).value.start
    {
      BoundariesFormGrid(cal, entry, t, u);
    }
  }
}
