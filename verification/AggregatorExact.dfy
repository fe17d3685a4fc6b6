/** The complete flag is exact: a bar closes complete if and only if nothing gave reason for doubt. */
module AggregatorExact {
  import opened Domain
  import opened CalendarModel
  import opened AggregatorModel
  import opened AggregatorProofs

  // ---- reasons for doubt, of the history alone ----

  /** An unbounded mark fell after the first trade of the boundary. */
  function Marked(setup: Setup, ops: seq<Op>, b: Boundary): bool {
    if ops == [] then false
    else
      var earlier, op := ops[..|ops| - 1], ops[|ops| - 1];
      Marked(setup, earlier, b) || (op.MarkOp? && op.start.None? && TradesIn(setup, earlier, b) != [])
  }

  /** Some trade was neither a repeat of the last counted one nor newer than it in its session. */
  function Refused(trades: seq<Event>): bool {
    if trades == [] then false
    else
      var earlier, e := trades[..|trades| - 1], trades[|trades| - 1];
      Refused(earlier) || (earlier != [] && OutOfOrder(Counted(earlier)[|Counted(earlier)| - 1], e))
  }

  predicate OutOfOrder(last: Event, e: Event) {
    PrintOf(e) != PrintOf(last) && e.sessionId == last.sessionId && e.sequence <= last.sequence
  }

  /** Neighbouring counted trades share their session and their totals never fall. */
  ghost predicate Steady(trades: seq<Event>) {
    && (forall e | e in trades :: e.total.Some?)
    && forall i | 0 < i < |trades| :: ContinuesAt(trades, i)
  }

  predicate ContinuesAt(trades: seq<Event>, i: nat)
    requires 0 < i < |trades|
  {
    Continues(trades[i - 1], trades[i])
  }

  predicate Continues(last: Event, e: Event) {
    e.sessionId == last.sessionId && last.total.Some? && e.total.Some? && last.total.value <= e.total.value
  }

  ghost predicate GapFree(setup: Setup, ops: seq<Op>, b: Boundary) {
    forall i | 0 <= i < |Reported(setup, ops)| :: !Overlaps(Reported(setup, ops)[i], b)
  }

  /** No reported gap overlaps the boundary, no unbounded mark fell while its bar formed, it starts no earlier than
      the recording, no trade was refused for its number, and the counted trades are of one session with totals
      that never fall. */
  ghost predicate Undoubted(setup: Setup, ops: seq<Op>, b: Boundary) {
    && GapFree(setup, ops, b) && !Marked(setup, ops, b)
    && (setup.startedAt.Some? ==> setup.startedAt.value <= b.start)
    && !Refused(TradesIn(setup, ops, b)) && Steady(Counted(TradesIn(setup, ops, b)))
  }

  // ---- gaps ----

  /** When the first trade from operation `from` on came at or after `t`. */
  function FirstTradeFrom(setup: Setup, ops: seq<Op>, from: nat, t: int): Option<int> {
    if |ops| <= from then None
    else
      var n := |ops| - 1;
      var earlier := FirstTradeFrom(setup, ops[..n], from, t);
      if earlier.None? && IsTrade(setup, ops[n]) && ops[n].e.matchedAt.value >= t then ops[n].e.matchedAt else earlier
  }

  predicate ReportsGap(op: Op) {
    op.MarkOp? && op.start.Some?
  }

  /** The gap reported by operation `i`: to its own end, or to the first trade after the report that comes at or
      after its start, or still open. */
  function GapOf(setup: Setup, ops: seq<Op>, i: nat): Gap
    requires i < |ops| && ReportsGap(ops[i])
  {
    var op := ops[i];
    Gap(op.start.value, if op.end.Some? then op.end else FirstTradeFrom(setup, ops, i + 1, op.start.value))
  }

  /** What one operation does to a gap already reported. */
  function Moved(setup: Setup, op: Op, g: Gap): Gap {
    if IsTrade(setup, op) then Touch(g, op.e.matchedAt.value) else g
  }

  lemma GapNext(setup: Setup, ops: seq<Op>, op: Op, i: nat)
    requires i < |ops| && ReportsGap(ops[i])
    ensures GapOf(setup, ops + [op], i) == Moved(setup, op, GapOf(setup, ops, i))
  {
    assert (ops + [op])[..|ops|] == ops;
  }

  lemma NewGap(setup: Setup, ops: seq<Op>, op: Op)
    requires ReportsGap(op)
    ensures GapOf(setup, ops + [op], |ops|) == Gap(op.start.value, op.end)
  {
  }

  lemma ReportedNext(setup: Setup, ops: seq<Op>, op: Op, g: Gap)
    ensures g in Reported(setup, ops + [op]) <==>
              || (exists h :: h in Reported(setup, ops) && Moved(setup, op, h) == g)
              || (ReportsGap(op) && g == Gap(op.start.value, op.end))
  {
    assert (ops + [op])[..|ops|] == ops;
    var was, now := Reported(setup, ops), Reported(setup, ops + [op]);
    hide Reported, Touch;
    forall k | 0 <= k < |was| ensures Moved(setup, op, was[k]) in now {
      assert now[k] == Moved(setup, op, was[k]);
    }
    if IsTrade(setup, op) && g in now {
      var k :| 0 <= k < |now| && now[k] == g;
      assert was[k] in was && Moved(setup, op, was[k]) == g;
    } else if ReportsGap(op) {
      assert now[|was|] == Gap(op.start.value, op.end);
    }
    if !IsTrade(setup, op) && g in was {
      assert Moved(setup, op, g) == g;
    }
  }

  /** Operation `i` reported the gap that is now `g`. */
  ghost predicate ReportedBy(setup: Setup, ops: seq<Op>, i: nat, g: Gap) {
    i < |ops| && ReportsGap(ops[i]) && GapOf(setup, ops, i) == g
  }

  /** The gaps kept in full are the reported ones, each ended as its report and the trades after it say. */
  lemma {:induction false} ReportedAre(setup: Setup, ops: seq<Op>)
    ensures forall g :: g in Reported(setup, ops) <==> exists i: nat :: ReportedBy(setup, ops, i, g)
  {
    if ops != [] {
      var n := |ops| - 1;
      ReportedAre(setup, ops[..n]);
      assert ops[..n] + [ops[n]] == ops;
      hide Reported;
      forall g ensures g in Reported(setup, ops) <==> exists i: nat :: ReportedBy(setup, ops, i, g) {
        ReportedStep(setup, ops[..n], ops[n], g);
      }
    }
  }

  lemma ReportedStep(setup: Setup, ops: seq<Op>, op: Op, g: Gap)
    requires forall h :: h in Reported(setup, ops) <==> exists i: nat :: ReportedBy(setup, ops, i, h)
    ensures g in Reported(setup, ops + [op]) <==> exists i: nat :: ReportedBy(setup, ops + [op], i, g)
  {
    ReportedNext(setup, ops, op, g);
    hide Reported, Moved, GapOf;
    var all := ops + [op];
    assert all[|ops|] == op;
    if g in Reported(setup, all) {
      if h :| h in Reported(setup, ops) && Moved(setup, op, h) == g {
        var i: nat :| ReportedBy(setup, ops, i, h);
        GapNext(setup, ops, op, i);
        assert all[i] == ops[i] && ReportedBy(setup, all, i, g);
      } else {
        NewGap(setup, ops, op);
        assert ReportedBy(setup, all, |ops|, g);
      }
    }
    forall i: nat | ReportedBy(setup, all, i, g) ensures g in Reported(setup, all) {
      if i < |ops| {
        assert all[i] == ops[i];
        GapNext(setup, ops, op, i);
        assert ReportedBy(setup, ops, i, GapOf(setup, ops, i));
      } else {
        NewGap(setup, ops, op);
      }
    }
  }

  /** An instant of the boundary and of the gap, whose own end belongs to it. */
  predicate Shared(g: Gap, b: Boundary, t: int) {
    b.start <= t < b.end && g.start <= t && (g.end.Some? ==> t <= g.end.value)
  }

  /** A gap that does not end before it starts overlaps a boundary exactly when they share an instant. */
  lemma OverlapIsShared(g: Gap, b: Boundary)
    requires b.start < b.end && (g.end.Some? ==> g.start <= g.end.value)
    ensures Overlaps(g, b) <==> exists t :: Shared(g, b, t)
  {
    if Overlaps(g, b) {
      assert Shared(g, b, if g.start < b.start then b.start else g.start);
    }
  }

  /** No reported gap overlaps the boundary: gap by gap, of the operations alone. */
  lemma GapFreeIs(setup: Setup, ops: seq<Op>, b: Boundary)
    ensures GapFree(setup, ops, b) <==>
              forall i | 0 <= i < |ops| && ReportsGap(ops[i]) :: !Overlaps(GapOf(setup, ops, i), b)
  {
    ReportedAre(setup, ops);
    hide Reported, Overlaps, GapOf;
    if GapFree(setup, ops, b) {
      forall i | 0 <= i < |ops| && ReportsGap(ops[i]) ensures !Overlaps(GapOf(setup, ops, i), b) {
        var g := GapOf(setup, ops, i);
        assert ReportedBy(setup, ops, i, g);
        assert g in Reported(setup, ops);
      }
    } else {
      var k :| 0 <= k < |Reported(setup, ops)| && Overlaps(Reported(setup, ops)[k], b);
      assert Reported(setup, ops)[k] in Reported(setup, ops);
      var i: nat :| ReportedBy(setup, ops, i, Reported(setup, ops)[k]);
    }
  }

  /** Every gap still kept has been reported. */
  ghost predicate GapsReported(setup: Setup, ops: seq<Op>, gaps: seq<Gap>) {
    forall g | g in gaps :: g in Reported(setup, ops)
  }

  lemma {:induction false} UpdateIsTouched(gaps: seq<Gap>, at: int, start: int, g: Gap)
    requires g in UpdateGaps(gaps, at, start)
    ensures exists h :: h in gaps && g == Touch(h, at)
  {
    var last, rest := gaps[|gaps| - 1], gaps[..|gaps| - 1];
    if g in UpdateGaps(rest, at, start) {
      UpdateIsTouched(rest, at, start, g);
      var h :| h in rest && g == Touch(h, at);
      assert h in gaps;
    } else {
      assert last in gaps && g == Touch(last, at);
    }
  }

  lemma TouchIsReported(setup: Setup, ops: seq<Op>, op: Op, gaps: seq<Gap>, start: int)
    requires IsTrade(setup, op) && GapsReported(setup, ops, gaps)
    ensures GapsReported(setup, ops + [op], UpdateGaps(gaps, op.e.matchedAt.value, start))
  {
    NextTrade(setup, ops, op);
    var at := op.e.matchedAt.value;
    forall g | g in UpdateGaps(gaps, at, start) ensures g in TouchAll(Reported(setup, ops), at) {
      UpdateIsTouched(gaps, at, start, g);
      var h :| h in gaps && g == Touch(h, at);
      var i :| 0 <= i < |Reported(setup, ops)| && Reported(setup, ops)[i] == h;
      assert TouchAll(Reported(setup, ops), at)[i] == g;
    }
  }

  /** A trade at or after the boundary's start changes no overlap with it. */
  lemma TouchKeepsOverlap(g: Gap, b: Boundary, at: int)
    requires b.start <= at
    ensures Overlaps(Touch(g, at), b) <==> Overlaps(g, b)
  {
  }

  lemma TouchKeepsGapFree(setup: Setup, ops: seq<Op>, op: Op, b: Boundary)
    requires IsTrade(setup, op) && b.start <= op.e.matchedAt.value
    ensures GapFree(setup, ops + [op], b) <==> GapFree(setup, ops, b)
  {
    NextTrade(setup, ops, op);
    hide Reported, Overlaps, Touch;
    var was, at := Reported(setup, ops), op.e.matchedAt.value;
    var now := TouchAll(was, at);
    forall i | 0 <= i < |was| ensures Overlaps(now[i], b) <==> Overlaps(was[i], b) {
      assert now[i] == Touch(was[i], at);
      TouchKeepsOverlap(was[i], b, at);
    }
    if GapFree(setup, ops + [op], b) {
      assert forall i | 0 <= i < |was| :: !Overlaps(now[i], b);
    }
  }

  /** The kept gaps decide like the reported ones. */
  lemma NeedsReviewIs(setup: Setup, ops: seq<Op>, gaps: seq<Gap>, b: Boundary)
    requires GapsKnown(gaps, Reported(setup, ops), Some(b.start)) && GapsReported(setup, ops, gaps)
    ensures NeedsReview(setup, gaps, b) <==>
              !(GapFree(setup, ops, b) && (setup.startedAt.Some? ==> setup.startedAt.value <= b.start))
  {
    hide Reported;
    var all := Reported(setup, ops);
    if exists i :: 0 <= i < |gaps| && Overlaps(gaps[i], b) {
      var i :| 0 <= i < |gaps| && Overlaps(gaps[i], b);
      assert gaps[i] in all;
    }
    if !GapFree(setup, ops, b) {
      var i :| 0 <= i < |all| && Overlaps(all[i], b);
      assert all[i] in gaps;
    }
  }

  // ---- trades ----

  lemma SteadyNext(trades: seq<Event>, e: Event)
    requires trades != [] && (forall x | x in trades :: x.total.Some?) && e.total.Some?
    ensures Steady(trades + [e]) <==> Steady(trades) && Continues(trades[|trades| - 1], e)
  {
    hide Continues;
    var all := trades + [e];
    assert forall i | 0 < i < |trades| :: ContinuesAt(all, i) == ContinuesAt(trades, i);
    assert ContinuesAt(all, |trades|) == Continues(trades[|trades| - 1], e);
    if Steady(all) {
      assert forall i | 0 < i < |trades| :: ContinuesAt(trades, i) == ContinuesAt(all, i);
    }
  }

  lemma RefusedNext(trades: seq<Event>, e: Event)
    requires trades != []
    ensures var last := Counted(trades)[|Counted(trades)| - 1];
            Refused(trades + [e]) <==> Refused(trades) || OutOfOrder(last, e)
  {
    assert (trades + [e])[..|trades|] == trades;
    hide Counted;
  }

  lemma CountedUsable(f: Forming, trades: seq<Event>)
    requires Records(f, trades)
    ensures forall x | x in trades :: x.total.Some?
  {
  }

  /** One more trade of the boundary: still undoubted exactly when it gives no reason for doubt. */
  lemma ExtendIsExact(f: Forming, trades: seq<Event>, e: Event, review: bool, clean: bool)
    requires Records(f, Counted(trades)) && e.Usable() && trades != []
    requires f.complete <==> clean && !Refused(trades) && Steady(Counted(trades))
    requires review ==> !clean
    ensures Extend(f, f.boundary, e, review).complete <==>
              clean && !Refused(trades + [e]) && Steady(Counted(trades + [e]))
  {
    var counted := Counted(trades);
    var last := counted[|counted| - 1];
    RecordsLast(f, counted);
    CountedUsable(f, counted);
    RefusedNext(trades, e);
    CountedNext(trades, e);
    RecordsTotal(f, counted);
    assert Refused(trades + [e]) <==> Refused(trades) || OutOfOrder(last, e);
    if CountsAfter(last, e) {
      SteadyNext(counted, e);
    }
    hide Records, Counted, Refused, Steady;
  }

  lemma RecordsTotal(f: Forming, trades: seq<Event>)
    requires Records(f, trades) && trades != []
    ensures trades[|trades| - 1].total == Some(f.lastTotal)
  {
    hide Summarizes;
  }

  // ---- the invariant ----

  /** The forming bar is complete exactly while its boundary is undoubted. */
  ghost predicate Exact(setup: Setup, ops: seq<Op>, s: Agg) {
    && GapsReported(setup, ops, s.gaps)
    && (s.forming.Some? ==> (s.forming.value.complete <==> Undoubted(setup, ops, s.forming.value.boundary)))
  }

  lemma IdleIsExact(setup: Setup, ops: seq<Op>, s: Agg, op: Op)
    requires Exact(setup, ops, s) && !op.MarkOp? && !IsTrade(setup, op)
    ensures Exact(setup, ops + [op], s)
  {
    hide Reported, Undoubted;
    IdleReports(setup, ops, op);
    if s.forming.Some? {
      StaysUndoubted(setup, ops, op, s.forming.value.boundary);
    }
  }

  lemma IdleReports(setup: Setup, ops: seq<Op>, op: Op)
    requires !op.MarkOp? && !IsTrade(setup, op)
    ensures Reported(setup, ops + [op]) == Reported(setup, ops)
  {
    assert (ops + [op])[..|ops|] == ops;
  }

  lemma StaysUnmarked(setup: Setup, ops: seq<Op>, op: Op, b: Boundary)
    requires !op.MarkOp?
    ensures Marked(setup, ops + [op], b) == Marked(setup, ops, b)
  {
    hide TradesIn;
    assert (ops + [op])[..|ops|] == ops;
  }

  /** Neither the clock, nor an event that is no trade, nor a trade past the end changes the verdict. */
  lemma StaysUndoubted(setup: Setup, ops: seq<Op>, op: Op, b: Boundary)
    requires !op.MarkOp?
    requires IsTrade(setup, op) ==> BoundaryOf(setup, op) != b && b.start <= op.e.matchedAt.value
    ensures Undoubted(setup, ops + [op], b) <==> Undoubted(setup, ops, b)
  {
    hide Refused, Steady, Counted, TradesIn, Marked, Overlaps, Reported;
    SameTrades(setup, ops, op, b);
    StaysUnmarked(setup, ops, op, b);
    if IsTrade(setup, op) {
      TouchKeepsGapFree(setup, ops, op, b);
    } else {
      IdleReports(setup, ops, op);
    }
    hide GapFree;
  }

  lemma MarkIsExact(setup: Setup, ops: seq<Op>, s: Agg, op: Op)
    requires Exact(setup, ops, s) && op.MarkOp?
    requires s.forming.Some? ==> LastBoundary(setup, ops) == Some(s.forming.value.boundary)
    ensures Exact(setup, ops + [op], MarkIncomplete(s, op.start, op.end))
  {
    hide Refused, Steady, Counted;
    assert (ops + [op])[..|ops|] == ops;
    var was, now := Reported(setup, ops), Reported(setup, ops + [op]);
    assert now == if op.start.Some? then was + [Gap(op.start.value, op.end)] else was;
    assert forall g | g in was :: g in now;
    if op.start.Some? {
      assert now[|was|] == Gap(op.start.value, op.end);
    }
    if s.forming.Some? {
      var b := s.forming.value.boundary;
      SomeTradesIn(setup, ops, b);
      SameTrades(setup, ops, op, b);
      MarkGaps(setup, ops, op, b);
    }
    hide TradesIn, Overlaps, Reported, GapFree;
  }

  lemma MarkGaps(setup: Setup, ops: seq<Op>, op: Op, b: Boundary)
    requires op.MarkOp?
    ensures GapFree(setup, ops + [op], b) <==>
              GapFree(setup, ops, b) && (op.start.Some? ==> !Overlaps(Gap(op.start.value, op.end), b))
  {
    hide Overlaps;
    assert (ops + [op])[..|ops|] == ops;
    var was, now := Reported(setup, ops), Reported(setup, ops + [op]);
    assert forall i | 0 <= i < |was| :: now[i] == was[i];
    if op.start.Some? {
      assert now[|was|] == Gap(op.start.value, op.end);
    }
  }

  lemma {:induction false} UnmarkedBefore(setup: Setup, ops: seq<Op>, b: Boundary)
    requires TradesIn(setup, ops, b) == []
    ensures !Marked(setup, ops, b)
  {
    if ops != [] {
      UnmarkedBefore(setup, ops[..|ops| - 1], b);
    }
  }

  lemma SingleIsSteady(e: Event)
    requires e.total.Some?
    ensures Steady([e]) && !Refused([e]) && Counted([e]) == [e]
  {
    assert [e][..0] == [];
  }

  /** A bar begins complete exactly when its boundary is undoubted. */
  lemma BeginIsExact(setup: Setup, ops: seq<Op>, op: Op, gaps: seq<Gap>)
    requires IsTrade(setup, op) && TradesIn(setup, ops, BoundaryOf(setup, op)) == []
    requires GapsReported(setup, ops + [op], gaps)
    requires GapsKnown(gaps, Reported(setup, ops + [op]), Some(BoundaryOf(setup, op).start))
    ensures var b := BoundaryOf(setup, op); !NeedsReview(setup, gaps, b) <==> Undoubted(setup, ops + [op], b)
  {
    hide Refused, Steady, Counted, Marked, Overlaps, Reported, GapsKnown, GapsReported, NeedsReview, GapFree;
    var b := BoundaryOf(setup, op);
    NeedsReviewIs(setup, ops + [op], gaps, b);
    NextTrade(setup, ops, op);
    hide TradesIn;
    UnmarkedBefore(setup, ops, b);
    StaysUnmarked(setup, ops, op, b);
    SingleIsSteady(op.e);
    assert [] + [op.e] == [op.e];
  }

  /** A further trade leaves the bar complete exactly when its boundary is still undoubted. */
  lemma TradeIsExact(setup: Setup, ops: seq<Op>, f: Forming, op: Op, gaps: seq<Gap>)
    requires IsTrade(setup, op) && BoundaryOf(setup, op) == f.boundary && f.boundary.start <= op.e.matchedAt.value
    requires FormedWell(setup, ops, f) && (f.complete <==> Undoubted(setup, ops, f.boundary))
    requires GapsReported(setup, ops + [op], gaps)
    requires GapsKnown(gaps, Reported(setup, ops + [op]), Some(f.boundary.start))
    ensures var b := f.boundary;
            Extend(f, b, op.e, NeedsReview(setup, gaps, b)).complete <==> Undoubted(setup, ops + [op], b)
  {
    hide Refused, Steady, Counted, Marked, Reported, GapsKnown, GapsReported, NeedsReview, GapFree, Records,
        TradesIn, Extend, Clean, LastBoundary;
    var b := f.boundary;
    var trades := TradesIn(setup, ops, b);
    SomeTradesIn(setup, ops, b);
    NeedsReviewIs(setup, ops + [op], gaps, b);
    TouchKeepsGapFree(setup, ops, op, b);
    StaysUnmarked(setup, ops, op, b);
    NextTrade(setup, ops, op);
    var clean := GapFree(setup, ops, b) && !Marked(setup, ops, b)
                 && (setup.startedAt.Some? ==> setup.startedAt.value <= b.start);
    ExtendIsExact(f, trades, op.e, NeedsReview(setup, gaps, b), clean);
  }

  lemma TradeStepIsExact(setup: Setup, ops: seq<Op>, r: Step, op: Op)
    requires OnGrid(setup) && Good(setup, ops, r) && Timeline(ops + [op]) && IsTrade(setup, op)
    requires Exact(setup, ops, r.state)
    ensures Exact(setup, ops + [op], Accept(setup, r.state, op.e).state)
  {
    hide Good, Accept, Summarizes, Counted, TradesIn, Records, Clean, Reached, UpdateGaps, NeedsReview, Reported,
        Extend, Begin, Undoubted, ClosedWell, FormedWell, GapsKnown, OnTheGrid, LastBoundary, CloseOf, GapsReported;
    var at, b := op.e.matchedAt.value, BoundaryOf(setup, op);
    var gaps := UpdateGaps(r.state.gaps, at, b.start);
    TradeKeepsGaps(setup, ops, r, op);
    TouchIsReported(setup, ops, op, r.state.gaps, b.start);
    if r.state.forming.Some? && at < r.state.forming.value.boundary.end {
      var f := r.state.forming.value;
      AcceptExtends(setup, r.state, op.e);
      GoodForming(setup, ops, r);
      TimeHasCome(ops, op, f.boundary.start);
      GridFrom(setup, f.boundary, op);
      TradeIsExact(setup, ops, f, op, gaps);
      ExtendKeepsBoundary(f, b, op.e, NeedsReview(setup, gaps, b));
    } else {
      AcceptBegins(setup, r.state, op.e);
      OpensFresh(setup, ops, r, op);
      BeginIsExact(setup, ops, op, gaps);
      BeginsWith(b, op.e, !NeedsReview(setup, gaps, b));
    }
  }

  lemma BeginsWith(b: Boundary, e: Event, complete: bool)
    requires e.Usable()
    ensures Begin(b, e, complete).boundary == b && Begin(b, e, complete).complete == complete
  {
  }

  lemma {:induction false} EveryRunIsExact(setup: Setup, ops: seq<Op>)
    requires OnGrid(setup) && Timeline(ops)
    ensures Exact(setup, ops, Run(setup, ops).state)
  {
    if ops != [] {
      var earlier, op := ops[..|ops| - 1], ops[|ops| - 1];
      assert ops == earlier + [op];
      EveryRunIsExact(setup, earlier);
      EveryRunIsGood(setup, earlier);
      var r := Run(setup, earlier);
      hide Accept, Undoubted, GapsReported, Reported, CloseOf;
      if op.MarkOp? {
        FormingIsLast(setup, earlier, r);
        MarkIsExact(setup, earlier, r.state, op);
      } else if IsTrade(setup, op) {
        hide Good, Exact;
        TradeStepIsExact(setup, earlier, r, op);
      } else {
        hide Good;
        IdleIsExact(setup, earlier, r.state, op);
        if op.AcceptOp? {
          IdleAccepts(setup, r.state, op);
        }
      }
    }
  }

  lemma FormingIsLast(setup: Setup, ops: seq<Op>, r: Step)
    requires Good(setup, ops, r)
    ensures r.state.forming.Some? ==> LastBoundary(setup, ops) == Some(r.state.forming.value.boundary)
  {
    hide Summarizes, Counted, TradesIn, Records, Clean, Reached, ClosedWell, Reported, GapsKnown;
  }

  /** A callback that is no trade, lacks its time, price, quantity or total, or falls outside every session changes
      nothing; any other belongs to the batch of its boundary. */
  lemma TradesAreComplete(setup: Setup, ops: seq<Op>, s: Agg, e: Event)
    ensures var missing := !e.isTrade || e.matchedAt.None? || e.price.None? || e.quantity.None? || e.total.None?;
            if missing || setup.resolve(e.matchedAt.value).None? then
              && Accept(setup, s, e) == Step(s, [])
              && forall b :: TradesIn(setup, ops + [AcceptOp(e)], b) == TradesIn(setup, ops, b)
            else
              var b := setup.resolve(e.matchedAt.value).value;
              TradesIn(setup, ops + [AcceptOp(e)], b) == TradesIn(setup, ops, b) + [e]
  {
    if IsTrade(setup, AcceptOp(e)) {
      NextTrade(setup, ops, AcceptOp(e));
    } else {
      IdleAccepts(setup, s, AcceptOp(e));
      forall b ensures TradesIn(setup, ops + [AcceptOp(e)], b) == TradesIn(setup, ops, b) {
        SameTrades(setup, ops, AcceptOp(e), b);
      }
    }
    hide Accept, TradesIn;
  }

  /** A repeat is a trade with the time text, price, quantity and total of the last counted one; its sequence number
      and session do not matter. */
  lemma RepeatsAre(e: Event, f: Event)
    ensures PrintOf(e) == PrintOf(f) <==>
              e.timeRaw == f.timeRaw && e.price == f.price && e.quantity == f.quantity && e.total == f.total
  {
  }

  lemma IdleAccepts(setup: Setup, s: Agg, op: Op)
    requires op.AcceptOp? && !IsTrade(setup, op)
    ensures Accept(setup, s, op.e) == Step(s, [])
  {
    hide Begin, Extend, UpdateGaps, NeedsReview, Advance;
  }

  /** The completeness flag is exact: on one timeline, a bar that closes is complete if and only if nothing in the
      history up to its close gave reason for doubt. */
  lemma CompleteIsExact(setup: Setup, ops: seq<Op>, op: Op)
    requires OnGrid(setup) && Timeline(ops + [op])
    ensures forall c | c in Apply(setup, Run(setup, ops).state, op).closed ::
              c.complete <==> Undoubted(setup, ops + [op], BoundaryOfClosed(c))
  {
    assert Timeline(ops) by {
      assert forall i | 0 <= i < |ops| :: (ops + [op])[i] == ops[i];
    }
    EveryRunIsGood(setup, ops);
    EveryRunIsExact(setup, ops);
    var r := Run(setup, ops);
    hide Run, Summarizes, Counted, TradesIn, Reached, Extend, Begin, UpdateGaps, NeedsReview, Undoubted;
    var closed := Apply(setup, r.state, op).closed;
    if closed != [] {
      GoodForming(setup, ops, r);
      var f := r.state.forming.value;
      assert closed == [CloseOf(setup, f)];
      assert BoundaryOfClosed(CloseOf(setup, f)) == f.boundary;
      if IsTrade(setup, op) {
        GridAfter(setup, f.boundary, op);
      }
      StaysUndoubted(setup, ops, op, f.boundary);
    }
  }

  // ---- every bar is emitted ----

  /** A clock reading, or a trade of some session, at or after `t`. */
  predicate Passes(setup: Setup, op: Op, t: int) {
    (op.AdvanceOp? || IsTrade(setup, op)) && TimeOf(op).value >= t
  }

  ghost predicate Ended(setup: Setup, ops: seq<Op>, t: int) {
    exists i :: 0 <= i < |ops| && Passes(setup, ops[i], t)
  }

  ghost predicate Listed(closed: seq<Closed>, b: Boundary) {
    exists c :: c in closed && BoundaryOfClosed(c) == b
  }

  predicate FormingAt(s: Agg, b: Boundary) {
    s.forming.Some? && s.forming.value.boundary == b
  }

  /** Each boundary traded in so far is listed once it has ended, and until then its bar is forming. */
  ghost predicate Emits(setup: Setup, ops: seq<Op>, r: Step) {
    forall b | TradesIn(setup, ops, b) != [] ::
      if Ended(setup, ops, b.end) then Listed(r.closed, b) else FormingAt(r.state, b)
  }

  lemma EndedNext(setup: Setup, ops: seq<Op>, op: Op, t: int)
    ensures Ended(setup, ops + [op], t) <==> Ended(setup, ops, t) || Passes(setup, op, t)
  {
    hide Passes;
    var all := ops + [op];
    assert all[|ops|] == op && forall i | 0 <= i < |ops| :: all[i] == ops[i];
  }

  lemma ListedNext(closed: seq<Closed>, more: seq<Closed>, b: Boundary)
    ensures Listed(closed + more, b) <==> Listed(closed, b) || Listed(more, b)
  {
    hide BoundaryOfClosed;
    assert forall c :: c in closed + more <==> c in closed || c in more;
  }

  lemma ClosesFor(setup: Setup, s: Agg)
    requires s.forming.Some?
    ensures Listed(ClosedBy(setup, s), s.forming.value.boundary)
  {
    var c := CloseOf(setup, s.forming.value);
    assert c in ClosedBy(setup, s) && BoundaryOfClosed(c) == s.forming.value.boundary;
  }

  /** A trade's own boundary has not ended before it. */
  lemma NotEndedAt(setup: Setup, ops: seq<Op>, op: Op)
    requires OnGrid(setup) && Timeline(ops + [op]) && IsTrade(setup, op)
    ensures !Ended(setup, ops + [op], BoundaryOf(setup, op).end)
  {
    var all := ops + [op];
    assert all[|ops|] == op;
    forall i | 0 <= i < |all| ensures !Passes(setup, all[i], BoundaryOf(setup, op).end) {
      assert i == |ops| || TimeOf(all[i]).None? || TimeOf(all[i]).value <= TimeOf(op).value;
    }
  }

  lemma QuietEmits(setup: Setup, ops: seq<Op>, r: Step, op: Op, s: Agg)
    requires Emits(setup, ops, r) && !IsTrade(setup, op) && !op.AdvanceOp?
    requires forall b :: FormingAt(r.state, b) ==> FormingAt(s, b)
    ensures Emits(setup, ops + [op], Step(s, r.closed))
  {
    hide TradesIn, Listed, Ended, FormingAt;
    forall b | TradesIn(setup, ops + [op], b) != []
      ensures if Ended(setup, ops + [op], b.end) then Listed(r.closed, b) else FormingAt(s, b)
    {
      SameTrades(setup, ops, op, b);
      EndedNext(setup, ops, op, b.end);
    }
  }

  lemma ClockEmits(setup: Setup, ops: seq<Op>, r: Step, op: Op)
    requires Emits(setup, ops, r) && op.AdvanceOp?
    ensures var step := Advance(setup, r.state, op.now);
        Emits(setup, ops + [op], Step(step.state, r.closed + step.closed))
  {
    hide TradesIn, Listed, Ended, CloseOf;
    var step := Advance(setup, r.state, op.now);
    forall b | TradesIn(setup, ops + [op], b) != []
      ensures if Ended(setup, ops + [op], b.end) then Listed(r.closed + step.closed, b) else FormingAt(step.state, b)
    {
      SameTrades(setup, ops, op, b);
      EndedNext(setup, ops, op, b.end);
      ListedNext(r.closed, step.closed, b);
      if r.state.forming.Some? {
        ClosesFor(setup, r.state);
      }
    }
  }

  lemma TradeEmits(setup: Setup, ops: seq<Op>, r: Step, op: Op)
    requires OnGrid(setup) && Good(setup, ops, r) && Timeline(ops + [op]) && IsTrade(setup, op)
    requires Emits(setup, ops, r)
    ensures var step := Accept(setup, r.state, op.e);
        Emits(setup, ops + [op], Step(step.state, r.closed + step.closed))
  {
    hide Good, Accept, TradesIn, Reached, UpdateGaps, NeedsReview, Extend, Begin, OnTheGrid, CloseOf, Listed, Ended,
        FormedWell, ClosedBy, Timeline, OnGrid;
    var step, mine := Accept(setup, r.state, op.e), BoundaryOf(setup, op);
    TradeForms(setup, ops, r, op);
    NotEndedAt(setup, ops, op);
    forall b | TradesIn(setup, ops + [op], b) != []
      ensures if Ended(setup, ops + [op], b.end) then Listed(r.closed + step.closed, b) else FormingAt(step.state, b)
    {
      if b != mine {
        SameTrades(setup, ops, op, b);
        EndedNext(setup, ops, op, b.end);
        ListedNext(r.closed, step.closed, b);
        assert FormingAt(r.state, b) ==> op.e.matchedAt.value >= b.end && step.closed == ClosedBy(setup, r.state);
        if FormingAt(r.state, b) {
          ClosesFor(setup, r.state);
        }
      }
    }
  }

  /** A trade leaves its own boundary forming, and closes any other that was. */
  lemma TradeForms(setup: Setup, ops: seq<Op>, r: Step, op: Op)
    requires OnGrid(setup) && Good(setup, ops, r) && Timeline(ops + [op]) && IsTrade(setup, op)
    ensures var step := Accept(setup, r.state, op.e);
            && FormingAt(step.state, BoundaryOf(setup, op))
            && (r.state.forming.Some? && r.state.forming.value.boundary != BoundaryOf(setup, op) ==>
                  Passed(r.state, op.e.matchedAt.value) && step.closed == ClosedBy(setup, r.state))
  {
    hide Good, Accept, TradesIn, Reached, UpdateGaps, NeedsReview, Extend, Begin, OnTheGrid, CloseOf, FormedWell;
    var b := BoundaryOf(setup, op);
    var review := NeedsReview(setup, UpdateGaps(r.state.gaps, op.e.matchedAt.value, b.start), b);
    if r.state.forming.Some? && op.e.matchedAt.value < r.state.forming.value.boundary.end {
      var f := r.state.forming.value;
      AcceptExtends(setup, r.state, op.e);
      GoodForming(setup, ops, r);
      TimeHasCome(ops, op, f.boundary.start);
      GridFrom(setup, f.boundary, op);
      ExtendKeepsBoundary(f, b, op.e, review);
    } else {
      AcceptBegins(setup, r.state, op.e);
      BeginsWith(b, op.e, !review);
    }
  }

  lemma {:induction false} EveryRunEmits(setup: Setup, ops: seq<Op>)
    requires OnGrid(setup) && Timeline(ops)
    ensures Emits(setup, ops, Run(setup, ops))
  {
    if ops != [] {
      var earlier, op := ops[..|ops| - 1], ops[|ops| - 1];
      assert ops == earlier + [op];
      EveryRunEmits(setup, earlier);
      EveryRunIsGood(setup, earlier);
      var r := Run(setup, earlier);
      hide Accept, Good, Emits, CloseOf, Advance;
      if op.MarkOp? {
        QuietEmits(setup, earlier, r, op, MarkIncomplete(r.state, op.start, op.end));
        assert r.closed + [] == r.closed;
      } else if op.AdvanceOp? {
        ClockEmits(setup, earlier, r, op);
      } else if IsTrade(setup, op) {
        TradeEmits(setup, earlier, r, op);
      } else {
        IdleAccepts(setup, r.state, op);
        QuietEmits(setup, earlier, r, op, r.state);
        assert r.closed + [] == r.closed;
      }
    }
  }

  /** On one timeline the bars emitted are exactly those of the boundaries that held a trade and have ended. */
  lemma EmittedExactly(setup: Setup, ops: seq<Op>, b: Boundary)
    requires OnGrid(setup) && Timeline(ops)
    ensures Listed(Run(setup, ops).closed, b) <==> TradesIn(setup, ops, b) != [] && Ended(setup, ops, b.end)
  {
    EveryRunEmits(setup, ops);
    EveryRunIsGood(setup, ops);
    var r := Run(setup, ops);
    hide Run, Reached, Ended, Records, Clean, LastBoundary, Reported, GapsKnown;
    if Listed(r.closed, b) {
      var c :| c in r.closed && BoundaryOfClosed(c) == b;
      var i :| 0 <= i < |r.closed| && r.closed[i] == c;
      GoodClosed(setup, ops, r);
      assert IsBatch(setup, ops, r.closed[i]);
      assert Counted([]) == [];
      FormingIsLater(setup, ops, r);
    }
  }

  lemma FormingIsLater(setup: Setup, ops: seq<Op>, r: Step)
    requires Good(setup, ops, r)
    ensures forall b | FormingAt(r.state, b) :: b.start < b.end && forall i | 0 <= i < |r.closed| ::
                r.closed[i].bar.end <= b.start
  {
    hide Reached, Records, Clean, LastBoundary, Reported, GapsKnown, IsBatch;
  }
}
