/** The warm-up of a replay: which records the engine remembers, and what an entry needs behind it. */
module ReplayWarmup {
  import opened Domain
  import opened MovingAverage
  import opened EngineModel
  import opened EngineProofs
  import opened EngineWait
  import opened ReplayModel
  import opened SkipProofs
  import opened ReplayProofs
  import opened ReplayLog

  // ---- the warm-up, of the records alone ----

  predicate Warms(record: BarRecord) {
    record.complete && record.bar.instrument == Mxf
  }

  /** The next bar of the same contract, with none missing in between. */
  predicate Succeeds(before: BarRecord, after: BarRecord, nextClose: int -> int) {
    after.bar.contract == before.bar.contract && nextClose(before.bar.end) == after.bar.end
  }

  /** From record `k` on every record warms, and each one succeeds the one before. */
  ghost predicate ChainedFrom(records: seq<BarRecord>, k: nat, nextClose: int -> int) {
    && (forall i | k <= i < |records| :: Warms(records[i]))
    && (forall i | k < i < |records| :: Succeeds(records[i - 1], records[i], nextClose))
  }

  /** The longest chained suffix. */
  ghost predicate IsWarmUp(records: seq<BarRecord>, suffix: seq<BarRecord>, nextClose: int -> int) {
    exists k: nat :: k <= |records| && suffix == records[k..] && LongestFrom(records, k, nextClose)
  }

  ghost predicate LongestFrom(records: seq<BarRecord>, k: nat, nextClose: int -> int) {
    ChainedFrom(records, k, nextClose) && (k > 0 ==> !ChainedFrom(records, k - 1, nextClose))
  }

  function WarmUp(records: seq<BarRecord>, nextClose: int -> int): seq<BarRecord> {
    if records == [] || !Warms(records[|records| - 1]) then []
    else
      var before, last := WarmUp(records[..|records| - 1], nextClose), records[|records| - 1];
      if before != [] && Succeeds(before[|before| - 1], last, nextClose) then before + [last] else [last]
  }

  /** Where the longest chained suffix begins. */
  function WarmFrom(records: seq<BarRecord>, nextClose: int -> int): (k: nat)
    ensures k <= |records|
  {
    var n := |records| - 1;
    if records == [] || !Warms(records[n]) then |records|
    else
      var k := WarmFrom(records[..n], nextClose);
      if k < n && Succeeds(records[n - 1], records[n], nextClose) then k else n
  }

  lemma {:induction false} WarmUpStarts(records: seq<BarRecord>, nextClose: int -> int)
    ensures WarmUp(records, nextClose) == records[WarmFrom(records, nextClose)..]
  {
    hide Warms, Succeeds;
    var n := |records| - 1;
    if records != [] && Warms(records[n]) {
      WarmUpStarts(records[..n], nextClose);
      var k := WarmFrom(records[..n], nextClose);
      assert records[k..] == records[..n][k..] + [records[n]];
    }
  }

  /** Records are chained exactly when all but the last are, and the last continues them. */
  lemma ChainedLast(records: seq<BarRecord>, k: nat, nextClose: int -> int)
    requires k < |records|
    ensures var n := |records| - 1;
            ChainedFrom(records, k, nextClose) <==>
              && ChainedFrom(records[..n], k, nextClose) && Warms(records[n])
              && (k < n ==> Succeeds(records[n - 1], records[n], nextClose))
  {
    hide Warms, Succeeds;
    var n := |records| - 1;
    var earlier := records[..n];
    assert forall i | 0 <= i < n :: earlier[i] == records[i];
  }

  lemma {:induction false} WarmFromIsLongest(records: seq<BarRecord>, nextClose: int -> int)
    ensures LongestFrom(records, WarmFrom(records, nextClose), nextClose)
  {
    hide Warms, Succeeds, ChainedFrom;
    EmptyIsChained(records, nextClose);
    if records != [] {
      var n := |records| - 1;
      var k, now := WarmFrom(records[..n], nextClose), WarmFrom(records, nextClose);
      WarmFromIsLongest(records[..n], nextClose);
      EmptyIsChained(records[..n], nextClose);
      ChainedLast(records, n, nextClose);
      if now < |records| {
        ChainedLast(records, now, nextClose);
      }
      if n > 0 {
        ChainedLast(records, n - 1, nextClose);
      }
      if 0 < now < |records| {
        ChainedLast(records, now - 1, nextClose);
      }
    }
  }

  lemma EmptyIsChained(records: seq<BarRecord>, nextClose: int -> int)
    ensures ChainedFrom(records, |records|, nextClose)
  {
  }

  lemma WarmUpIsLongest(records: seq<BarRecord>, nextClose: int -> int)
    ensures IsWarmUp(records, WarmUp(records, nextClose), nextClose)
  {
    hide LongestFrom, WarmUp, WarmFrom;
    WarmUpStarts(records, nextClose);
    WarmFromIsLongest(records, nextClose);
  }

  // ---- the review records ----

  /** What the replay keeps of the records: the warm-up, and the last record while it has an engine. */
  ghost predicate Reviews(r: Replay, records: seq<BarRecord>, nextClose: int -> int) {
    && r.review == WarmUp(records, nextClose)
    && (r.previous.Some? <==> r.engine.Some?)
    && (r.previous.Some? ==> records != [] && r.previous.value == records[|records| - 1])
    && (records != [] && Warms(records[|records| - 1]) ==> r.previous.Some?)
  }

  lemma RecordReviews(cfg: Config, r0: Replay, records: seq<BarRecord>, nextClose: int -> int, tapes: Tapes)
    requires cfg.Usable() && records != [] && Reviews(r0, records[..|records| - 1], nextClose)
    ensures Reviews(ReplayRecord(cfg, r0, records[|records| - 1], nextClose, tapes), records, nextClose)
  {
    hide Through;
    var n := |records| - 1;
    LastOfWarmUp(records[..n], nextClose);
  }

  lemma LastOfWarmUp(records: seq<BarRecord>, nextClose: int -> int)
    ensures var w := WarmUp(records, nextClose);
            && (w != [] <==> records != [] && Warms(records[|records| - 1]))
            && (w != [] ==> w[|w| - 1] == records[|records| - 1])
  {
  }

  /** After every replay the review records are the longest suffix of complete bars of one contract that follow one
      another without a gap. */
  lemma {:induction false} ReviewIsWarmUp(cfg: Config, records: seq<BarRecord>, nextClose: int -> int, tapes: Tapes)
    requires cfg.Usable()
    ensures var r := ReplayAll(cfg, records, nextClose, tapes);
            Reviews(r, records, nextClose) && IsWarmUp(records, r.review, nextClose)
  {
    hide ReplayRecord, Reviews;
    WarmUpIsLongest(records, nextClose);
    if records == [] {
      NothingReviewed(nextClose);
    } else {
      var earlier := records[..|records| - 1];
      ReviewIsWarmUp(cfg, earlier, nextClose, tapes);
      RecordReviews(cfg, ReplayAll(cfg, earlier, nextClose, tapes), records, nextClose, tapes);
    }
    ReviewsWarmUp(ReplayAll(cfg, records, nextClose, tapes), records, nextClose);
  }

  lemma NothingReviewed(nextClose: int -> int)
    ensures Reviews(NOTHING_REPLAYED, [], nextClose)
  {
  }

  lemma ReviewsWarmUp(r: Replay, records: seq<BarRecord>, nextClose: int -> int)
    requires Reviews(r, records, nextClose)
    ensures r.review == WarmUp(records, nextClose)
  {
  }

  // ---- what one record does to the memory ----

  function BarsOf(records: seq<BarRecord>): (r: seq<Bar>)
    ensures |r| == |records|
  {
    seq(|records|, i requires 0 <= i < |records| => records[i].bar)
  }

  predicate Enters(t: HistoricalTrade) {
    t.decision.signal in {Some(EnterLong), Some(EnterShort)}
  }

  /** What an entry needs of a closed bar besides momentum, given the bars remembered with it and whether a wait
      was on before. */
  ghost predicate Ready(cfg: Config, record: BarRecord, bars: seq<Bar>, waited: bool)
    requires cfg.Usable()
  {
    && record.complete && !cfg.InBand(record.bar.end)
    && |bars| >= cfg.maWindow + cfg.flatLookback
    && (waited || Settled(cfg, bars) ==> Change(bars, cfg.maWindow, 0) >= cfg.flatThreshold)
  }

  /** A close that remembers `bars`: an entry is made exactly when one is due, and ends the wait. */
  ghost predicate ClosesWarm(cfg: Config, s: State, record: BarRecord, bars: seq<Bar>, closed: Fed)
    requires cfg.Usable()
  {
    var due := s.side == Flat && Ready(cfg, record, bars, s.waiting);
    var entered := exists i :: 0 <= i < |closed.trades| && Enters(closed.trades[i]);
    && Remembers(cfg, closed.state, bars)
    && |closed.trades| <= 1
    && (forall i | 0 <= i < |closed.trades| :: closed.trades[i].record == record)
    && (entered <==> due && (Momentum(cfg, bars, Red) || Momentum(cfg, bars, Black)))
    && (entered ==> closed.trades[0].side == (if Momentum(cfg, bars, Red) then Buy else Sell))
    && (closed.state.waiting <==> !entered && (s.waiting || (record.complete && Settled(cfg, bars))))
  }

  lemma FillKeepsMemory(s: State, side: Side, price: real, quantity: int, at: int)
    ensures var t := OnFill(s, side, price, quantity, at); t.closes == s.closes && t.streak == s.streak
    ensures var t := OnFill(s, side, price, quantity, at);
            t.waiting <==> s.waiting && !(OpeningSide(s, side) && FillAccepted(s, side, quantity))
  {
    hide Mean;
  }

  /** A close turns the signal of its bar, if any, into one trade and its fill. */
  lemma CloseAccepts(cfg: Config, s: State, record: BarRecord)
    requires cfg.Usable() && Whole(s) && Tracks(s, record.bar)
    ensures var o, closed := OnBar(cfg, s, record.bar, record.complete, false, false), Close(cfg, s, record);
            if o.decision.signal == None then closed == Fed(o.state, [])
            else
              && o.decision.price.Some? && |closed.trades| == 1 && closed.trades[0].record == record
              && closed.trades[0].decision == o.decision && closed.trades[0].side == SideOf(o.decision)
              && closed.state == OnFill(o.state, SideOf(o.decision), o.decision.price.value, closed.trades[0].quantity,
                  o.decision.at)
  {
    var bar := record.bar;
    var input := Input(bar.end, Some(bar), BarClosed, record.complete, false, false);
    var armed := ArmBreakout(cfg, Absorb(cfg, s, bar), input);
    var ctx := ContextOf(cfg, armed, input);
    assert Held(armed) && armed.side == s.side && armed.lots == s.lots && armed.lastPrice == Some(bar.close);
    var o := OnBar(cfg, s, bar, record.complete, false, false);
    assert o == Decide(cfg, armed, ctx);
    if s.side != Flat {
      DecideToExit(cfg, armed, ctx);
    } else {
      FlatDecides(cfg, armed, ctx);
    }
    hide OnBar, Decide, OnFill, ArmBreakout, Absorb, ContextOf;
  }

  /** The signal of a close, in terms of the bars. */
  lemma CloseSignals(cfg: Config, s: State, record: BarRecord, earlier: seq<Bar>)
    requires cfg.Usable() && Whole(s) && Tracks(s, record.bar) && Remembers(cfg, s, earlier)
    ensures var o, bars := OnBar(cfg, s, record.bar, record.complete, false, false), earlier + [record.bar];
            var due := s.side == Flat && Ready(cfg, record, bars, s.waiting);
            && Remembers(cfg, o.state, bars) && o.state.side == s.side && o.state.lots == s.lots
            && o.state.closedQuantity == s.closedQuantity
            && (o.decision.signal == Some(EnterLong) <==> due && Momentum(cfg, bars, Red))
            && (o.decision.signal == Some(EnterShort) <==> due && Momentum(cfg, bars, Black))
            && (o.decision.signal == Some(ExitAll) ==> s.side != Flat && o.decision.side == s.side)
            && o.decision.signal in {None, Some(EnterLong), Some(EnterShort), Some(ExitAll)}
            && (o.state.waiting <==> s.waiting || (record.complete && Settled(cfg, bars)))
  {
    var bars, e := earlier + [record.bar], BarEvent(record.bar, record.complete, false, false);
    EntryAt(cfg, s, earlier, e);
    ArmedWaits(cfg, s, earlier, e);
    StepWaits(cfg, s, earlier, e);
    BarRemembers(cfg, s, earlier, record.bar, record.complete, false, false);
    BarKeepsPlace(cfg, s, record);
    hide Step, OnBar, Settled, Change, Momentum, Choppy, Armed, Whole, Remembers;
    assert Step(cfg, s, e) == OnBar(cfg, s, record.bar, record.complete, false, false).state by {
      StepIsBar(cfg, s, e);
    }
  }

  lemma StepIsBar(cfg: Config, s: State, e: Event)
    requires cfg.Usable() && e.BarEvent? && Tracks(s, e.bar)
    ensures Step(cfg, s, e) == OnBar(cfg, s, e.bar, e.reliable, e.activeOrder, e.uncertain).state
  {
    hide OnBar;
  }

  lemma BarKeepsPlace(cfg: Config, s: State, record: BarRecord)
    requires cfg.Usable() && Whole(s) && Tracks(s, record.bar)
    ensures var o := OnBar(cfg, s, record.bar, record.complete, false, false);
            && o.state.side == s.side && o.state.lots == s.lots && o.state.closedQuantity == s.closedQuantity
            && (o.decision.signal == Some(ExitAll) ==> s.side != Flat && o.decision.side == s.side)
            && o.decision.signal in {None, Some(EnterLong), Some(EnterShort), Some(ExitAll)}
  {
    var bar := record.bar;
    var input := Input(bar.end, Some(bar), BarClosed, record.complete, false, false);
    var armed := ArmBreakout(cfg, Absorb(cfg, s, bar), input);
    var ctx := ContextOf(cfg, armed, input);
    if s.side != Flat {
      DecideToExit(cfg, armed, ctx);
    } else {
      FlatDecides(cfg, armed, ctx);
    }
    hide Decide, ContextOf;
  }

  lemma CloseIsWarm(cfg: Config, s: State, record: BarRecord, earlier: seq<Bar>)
    requires cfg.Usable() && Whole(s) && Tracks(s, record.bar) && Remembers(cfg, s, earlier)
    ensures ClosesWarm(cfg, s, record, earlier + [record.bar], Close(cfg, s, record))
  {
    hide OnBar, Close, Settled, Change, Momentum, Mean, OnFill, Closes, Tail, Trailing;
    var bars := earlier + [record.bar];
    CloseSignals(cfg, s, record, earlier);
    CloseAccepts(cfg, s, record);
    OneColor(cfg, bars);
    var o, closed := OnBar(cfg, s, record.bar, record.complete, false, false), Close(cfg, s, record);
    if o.decision.signal != None {
      var t := closed.trades[0];
      FillKeepsMemory(o.state, t.side, o.decision.price.value, t.quantity, o.decision.at);
      CloseShape(cfg, s, record);
    }
  }

  lemma OneColor(cfg: Config, bars: seq<Bar>)
    ensures !(Momentum(cfg, bars, Red) && Momentum(cfg, bars, Black))
  {
  }

  // ---- the memory of a replay ----

  /** No entry was logged at or after the bar that starts at `t`. */
  ghost predicate NoEntrySince(trades: seq<HistoricalTrade>, t: int) {
    forall k | 0 <= k < |trades| && Enters(trades[k]) :: trades[k].record.bar.start < t
  }

  /** Some bar of the warm-up found the average settled, and no entry was logged since. */
  ghost predicate WaitIn(cfg: Config, warm: seq<BarRecord>, trades: seq<HistoricalTrade>)
    requires cfg.Usable()
  {
    exists i :: 0 <= i < |warm| && Settled(cfg, BarsOf(warm[..i + 1])) && NoEntrySince(trades, warm[i].bar.start)
  }

  ghost predicate UpTo(r: Replay, start: int) {
    && (forall k | 0 <= k < |r.trades| && Enters(r.trades[k]) :: r.trades[k].record.bar.start <= start)
    && (forall i | 0 <= i < |r.review| :: r.review[i].bar.start <= start)
  }

  /** The engine holds the closes and the streak of the review records, and waits as they and the log say. */
  ghost predicate MemoryOk(cfg: Config, r: Replay, start: int)
    requires cfg.Usable()
  {
    && UpTo(r, start)
    && (r.engine.Some? ==>
          && Remembers(cfg, r.engine.value, BarsOf(r.review))
          && (r.engine.value.waiting <==> WaitIn(cfg, r.review, r.trades)))
  }

  lemma NoMemory(cfg: Config, s: State, trades: seq<HistoricalTrade>)
    requires cfg.Usable()
    ensures Remembers(cfg, ResetHistory(s), BarsOf([])) && !WaitIn(cfg, [], trades) && !ResetHistory(s).waiting
    ensures forall instrument, contract :: Remembers(cfg, Fresh(instrument, contract), BarsOf([]))
  {
    assert Closes(BarsOf([])) == [];
  }

  lemma PreparedRemembers(cfg: Config, r0: Replay, record: BarRecord, nextClose: int -> int, start: int)
    requires cfg.Usable() && MemoryOk(cfg, r0, start) && (r0.engine.None? ==> r0.review == [])
    ensures var r := AfterHole(SwitchContract(r0, record), record, nextClose);
            MemoryOk(cfg, r, start) && (r.engine.None? ==> r.review == []) && r.trades == r0.trades
  {
    if r0.engine.Some? {
      NoMemory(cfg, r0.engine.value, r0.trades);
    }
    hide Remembers, WaitIn;
  }

  /** Between two closes nothing is remembered or forgotten, and there is no entry. */
  lemma BetweenKeepsMemory(cfg: Config, s: State, previous: BarRecord, record: BarRecord, tape: Option<Tape>)
    requires cfg.Usable() && Whole(s) && previous.bar.end <= record.bar.end
    ensures var fed := BetweenCloses(cfg, s, previous, record, tape);
            && Whole(fed.state) && fed.state.closes == s.closes && fed.state.streak == s.streak
                && fed.state.waiting == s.waiting
            && fed.state.contract == s.contract && fed.state.instrument == s.instrument
            && (fed.state.side == Flat || fed.state.side == s.side)
            && forall k | 0 <= k < |fed.trades| :: !Enters(fed.trades[k])
  {
    BetweenSpan(cfg, s, previous, record, tape);
    hide BetweenCloses, TickOf, Whole;
  }

  /** One more record, and the trades it logged. */
  lemma WaitGrows(cfg: Config, warm: seq<BarRecord>, trades: seq<HistoricalTrade>, record: BarRecord,
                  added: seq<HistoricalTrade>, entered: bool)
    requires cfg.Usable() && forall i | 0 <= i < |warm| :: warm[i].bar.start < record.bar.start
    requires forall k | 0 <= k < |trades| && Enters(trades[k]) :: trades[k].record.bar.start < record.bar.start
    requires forall k | 0 <= k < |added| && Enters(added[k]) :: added[k].record == record
    requires entered <==> exists k :: 0 <= k < |added| && Enters(added[k])
    ensures WaitIn(cfg, warm + [record], trades + added) <==>
              !entered && (WaitIn(cfg, warm, trades) || Settled(cfg, BarsOf(warm + [record])))
  {
    hide Settled, Enters;
    var all, log := warm + [record], trades + added;
    assert all[..|warm| + 1] == all;
    assert forall i | 0 <= i < |warm| :: all[..i + 1] == warm[..i + 1] && all[i] == warm[i];
    assert forall k | 0 <= k < |trades| :: log[k] == trades[k];
    assert forall k | 0 <= k < |added| :: log[|trades| + k] == added[k];
    if entered {
      var k :| 0 <= k < |added| && Enters(added[k]);
      assert log[|trades| + k].record.bar.start == record.bar.start;
      assert forall i | 0 <= i < |all| :: all[i].bar.start <= record.bar.start;
    } else {
      assert forall k | 0 <= k < |log| && Enters(log[k]) :: k < |trades|;
      assert NoEntrySince(log, record.bar.start);
      forall i | 0 <= i < |warm| ensures NoEntrySince(log, warm[i].bar.start)
          <==> NoEntrySince(trades, warm[i].bar.start) {
        if NoEntrySince(log, warm[i].bar.start) {
          assert forall k | 0 <= k < |trades| && Enters(trades[k]) :: log[k].record.bar.start < warm[i].bar.start;
        }
      }
      if WaitIn(cfg, warm, trades) {
        var i :| 0 <= i < |warm| && Settled(cfg, BarsOf(warm[..i + 1])) && NoEntrySince(trades, warm[i].bar.start);
        assert Settled(cfg, BarsOf(all[..i + 1])) && NoEntrySince(log, all[i].bar.start);
      }
      if Settled(cfg, BarsOf(all)) {
        assert Settled(cfg, BarsOf(all[..|warm| + 1])) && NoEntrySince(log, all[|warm|].bar.start);
      }
    }
  }

  /** What a record logs and leaves, when it is let through: entries only at its close, exactly when due. */
  ghost predicate ThroughWarm(cfg: Config, r: Replay, record: BarRecord, fed: Fed)
    requires cfg.Usable()
  {
    var warm := r.review + [record];
    var waited := WaitIn(cfg, r.review, r.trades);
    var moved := Momentum(cfg, BarsOf(warm), Red) || Momentum(cfg, BarsOf(warm), Black);
    var entered := exists k :: 0 <= k < |fed.trades| && Enters(fed.trades[k]);
    && Remembers(cfg, fed.state, BarsOf(warm))
    && (forall k | 0 <= k < |fed.trades| && Enters(fed.trades[k]) ::
          fed.trades[k].record == record && fed.trades[k].side
              == (if Momentum(cfg, BarsOf(warm), Red) then Buy else Sell))
    && (entered ==> Ready(cfg, record, BarsOf(warm), waited) && moved)
    && (!IsOpen(r.engine) && Ready(cfg, record, BarsOf(warm), waited) && moved ==> entered)
    && (fed.state.waiting <==> !entered && (waited || (record.complete && Settled(cfg, BarsOf(warm)))))
  }

  lemma AfterBetween(cfg: Config, r: Replay, record: BarRecord, between: Fed, closed: Fed)
    requires cfg.Usable() && (!IsOpen(r.engine) ==> between.state.side == Flat)
    requires forall k | 0 <= k < |between.trades| :: !Enters(between.trades[k])
    requires between.state.waiting <==> WaitIn(cfg, r.review, r.trades)
    requires ClosesWarm(cfg, between.state, record, BarsOf(r.review + [record]), closed)
    ensures ThroughWarm(cfg, r, record, Fed(closed.state, between.trades + closed.trades))
  {
    hide Ready, Momentum, Remembers, WaitIn, Settled, Enters;
    var all := between.trades + closed.trades;
    assert forall k | 0 <= k < |between.trades| :: all[k] == between.trades[k];
    assert forall k | 0 <= k < |closed.trades| :: all[|between.trades| + k] == closed.trades[k];
    assert forall k | 0 <= k < |all| && Enters(all[k]) :: k == |between.trades| && all[k] == closed.trades[0];
  }

  lemma ThroughIsWarm(cfg: Config, r: Replay, record: BarRecord, tapes: Tapes, start: int, end: int)
    requires cfg.Usable() && ReplayOk(cfg, r, start, end) && Meets(r, record, start, end) && MemoryOk(cfg, r, start)
    requires r.engine.None? ==> r.review == []
    ensures ThroughWarm(cfg, r, record, Through(cfg, r, record, tapes))
  {
    var s := if r.engine.Some? then r.engine.value else Fresh(record.bar.instrument, record.bar.contract);
    NoMemory(cfg, s, r.trades);
    assert BarsOf(r.review + [record]) == BarsOf(r.review) + [record.bar];
    hide LogOk, OpenedBy, TickOf, Close, BetweenCloses, WaitIn, Remembers, ClosesWarm, ThroughWarm;
    assert Whole(s) && s.contract == record.bar.contract && s.instrument == record.bar.instrument;
    var between := if r.previous.Some? then BetweenCloses(cfg, s, r.previous.value, record, TapeFor(tapes, record))
        else Fed(s, []);
    if r.previous.Some? {
      BetweenKeepsMemory(cfg, s, r.previous.value, record, TapeFor(tapes, record));
    }
    SameMemory(cfg, s, between.state, BarsOf(r.review));
    CloseIsWarm(cfg, between.state, record, BarsOf(r.review));
    hide Whole, ReplayOk;
    AfterBetween(cfg, r, record, between, Close(cfg, between.state, record));
  }

  lemma SameMemory(cfg: Config, s: State, t: State, bars: seq<Bar>)
    requires Remembers(cfg, s, bars) && t.closes == s.closes && t.streak == s.streak
    ensures Remembers(cfg, t, bars)
  {
  }

  /** The memory after a record. */
  lemma RecordRemembers(cfg: Config, r0: Replay, record: BarRecord, nextClose: int -> int, tapes: Tapes, start: int,
                        end: int)
    requires cfg.Usable() && ReplayOk(cfg, r0, start, end) && MemoryOk(cfg, r0, start)
    requires record.bar.start > start && record.bar.end >= end && (r0.engine.None? ==> r0.review == [])
    ensures MemoryOk(cfg, ReplayRecord(cfg, r0, record, nextClose, tapes), record.bar.start)
  {
    PreparedOk(cfg, r0, record, nextClose, start, end);
    PreparedRemembers(cfg, r0, record, nextClose, start);
    var r := AfterHole(SwitchContract(r0, record), record, nextClose);
    hide ReplayOk, Through, WaitIn, Remembers, AfterHole, SwitchContract;
    if record.bar.instrument == Mxf && (record.complete || r.engine.Some?) {
      ThroughIsWarm(cfg, r, record, tapes, start, end);
      var fed := Through(cfg, r, record, tapes);
      EnteredGrows(cfg, r, record, fed, start);
      NoMemory(cfg, fed.state, r.trades + fed.trades);
      hide ThroughWarm, MemoryOk;
    } else {
      MemoryGrows(cfg, r, start, record.bar.start);
      MemoryDropped(cfg, r0, record, start);
    }
  }

  lemma MemoryGrows(cfg: Config, r: Replay, start: int, later: int)
    requires cfg.Usable() && MemoryOk(cfg, r, start) && start <= later
    ensures MemoryOk(cfg, r, later)
  {
    hide Remembers, WaitIn;
  }

  lemma MemoryDropped(cfg: Config, r0: Replay, record: BarRecord, start: int)
    requires cfg.Usable() && MemoryOk(cfg, r0, start) && start <= record.bar.start
    ensures MemoryOk(cfg, r0.(engine := None, previous := None, review := []), record.bar.start)
  {
    hide Remembers, WaitIn;
  }

  lemma EnteredGrows(cfg: Config, r: Replay, record: BarRecord, fed: Fed, start: int)
    requires cfg.Usable() && MemoryOk(cfg, r, start) && ThroughWarm(cfg, r, record, fed) && start < record.bar.start
    ensures record.complete ==>
              MemoryOk(cfg, Replay(Some(fed.state), Some(record), r.trades + fed.trades, r.review + [record]),
                  record.bar.start)
    ensures r.review == [] ==>
              MemoryOk(cfg, Replay(Some(ResetHistory(fed.state)), Some(record), r.trades + fed.trades, r.review),
                  record.bar.start)
  {
    hide WaitIn, Remembers, Ready, Momentum, Settled, Enters, BarsOf;
    LogGrowsTo(cfg, r, record, fed, start);
    if record.complete {
      ThroughWaits(cfg, r, record, fed, start);
    }
    NoMemory(cfg, fed.state, r.trades + fed.trades);
    hide UpTo;
  }

  lemma LogGrowsTo(cfg: Config, r: Replay, record: BarRecord, fed: Fed, start: int)
    requires cfg.Usable() && UpTo(r, start) && start < record.bar.start
    requires forall k | 0 <= k < |fed.trades| && Enters(fed.trades[k]) :: fed.trades[k].record == record
    ensures forall engine, review | review == r.review || review == r.review + [record] ::
              UpTo(Replay(engine, Some(record), r.trades + fed.trades, review), record.bar.start)
  {
    hide Enters;
    var log := r.trades + fed.trades;
    assert forall k | 0 <= k < |log| :: log[k] == if k < |r.trades| then r.trades[k] else fed.trades[k - |r.trades|];
  }

  lemma ThroughWaits(cfg: Config, r: Replay, record: BarRecord, fed: Fed, start: int)
    requires cfg.Usable() && UpTo(r, start) && ThroughWarm(cfg, r, record, fed) && start < record.bar.start
        && record.complete
    ensures fed.state.waiting <==> WaitIn(cfg, r.review + [record], r.trades + fed.trades)
  {
    hide WaitIn, Remembers, Ready, Momentum, Settled, Enters, BarsOf;
    var entered := exists k :: 0 <= k < |fed.trades| && Enters(fed.trades[k]);
    WaitGrows(cfg, r.review, r.trades, record, fed.trades, entered);
  }

  // ---- whole replays ----

  /** After every replay over time-ordered records an engine holds exactly the closes and the candle streak of the
      warm-up, and waits for a breakout exactly when the average settled in it with no entry since. */
  lemma {:induction false} MemoryIsWarmUp(cfg: Config, records: seq<BarRecord>, nextClose: int -> int, tapes: Tapes)
    requires cfg.Usable() && TimeOrdered(records) && records != []
    ensures var r, warm := ReplayAll(cfg, records, nextClose, tapes), WarmUp(records, nextClose);
            && MemoryOk(cfg, r, records[|records| - 1].bar.start)
            && (r.engine.Some? ==>
                  && Remembers(cfg, r.engine.value, BarsOf(warm))
                  && (r.engine.value.waiting <==> WaitIn(cfg, warm, r.trades)))
  {
    hide ReplayOk, MemoryOk, Reviews, WarmUp, ReplayAll, Remembers, WaitIn, TimeOrdered;
    ReplayRemembers(cfg, records, nextClose, tapes);
    ReviewIsWarmUp(cfg, records, nextClose, tapes);
    var after := ReplayAll(cfg, records, nextClose, tapes);
    ReviewsWarmUp(after, records, nextClose);
    if after.engine.Some? {
      MemoryMeans(cfg, after, records[|records| - 1].bar.start);
    }
  }

  lemma {:induction false} ReplayRemembers(cfg: Config, records: seq<BarRecord>, nextClose: int -> int, tapes: Tapes)
    requires cfg.Usable() && TimeOrdered(records) && records != []
    ensures MemoryOk(cfg, ReplayAll(cfg, records, nextClose, tapes), records[|records| - 1].bar.start)
  {
    hide ReplayRecord, ReplayOk, MemoryOk, Reviews, TimeOrdered, ReplayAll, IsWarmUp;
    var n := |records| - 1;
    var earlier, record := records[..n], records[n];
    var before := ReplayAll(cfg, earlier, nextClose, tapes);
    ReplayLast(cfg, records, nextClose, tapes);
    ReviewIsWarmUp(cfg, earlier, nextClose, tapes);
    ReviewsEngine(before, earlier, nextClose);
    OrderedEarlier(records);
    EveryReplayIsOk(cfg, earlier, nextClose, tapes);
    if n == 0 {
      NothingRemembered(cfg, record.bar.start - 1, record.bar.end);
      RecordRemembers(cfg, before, record, nextClose, tapes, record.bar.start - 1, record.bar.end);
    } else {
      ReplayRemembers(cfg, earlier, nextClose, tapes);
      RecordRemembers(cfg, before, record, nextClose, tapes, records[n - 1].bar.start, records[n - 1].bar.end);
    }
  }

  lemma ReplayLast(cfg: Config, records: seq<BarRecord>, nextClose: int -> int, tapes: Tapes)
    requires cfg.Usable() && records != []
    ensures var n := |records| - 1;
            ReplayAll(cfg, records, nextClose, tapes)
              == ReplayRecord(cfg, ReplayAll(cfg, records[..n], nextClose, tapes), records[n], nextClose, tapes)
    ensures |records| == 1 ==> ReplayAll(cfg, records[..0], nextClose, tapes) == NOTHING_REPLAYED
  {
    hide ReplayRecord;
  }

  lemma ReviewsEngine(r: Replay, records: seq<BarRecord>, nextClose: int -> int)
    requires Reviews(r, records, nextClose)
    ensures r.engine.None? ==> r.review == []
  {
    LastOfWarmUp(records, nextClose);
  }

  lemma OrderedEarlier(records: seq<BarRecord>)
    requires TimeOrdered(records) && records != []
    ensures var n := |records| - 1;
            && TimeOrdered(records[..n])
            && (n > 0 ==>
                  records[n - 1].bar.start < records[n].bar.start && records[n - 1].bar.end <= records[n].bar.end)
  {
  }

  lemma NothingRemembered(cfg: Config, start: int, end: int)
    requires cfg.Usable()
    ensures MemoryOk(cfg, NOTHING_REPLAYED, start) && ReplayOk(cfg, NOTHING_REPLAYED, start, end)
  {
    EmptyLogOk(cfg, start, end);
  }

  /** One record of a replay: what it adds to the log. */
  ghost predicate EntersWhenDue(cfg: Config, records: seq<BarRecord>, nextClose: int -> int, tapes: Tapes)
    requires cfg.Usable() && records != []
  {
    var n := |records| - 1;
    var before, after := ReplayAll(cfg, records[..n], nextClose, tapes), ReplayAll(cfg, records, nextClose, tapes);
    var warm, record := WarmUp(records, nextClose), records[n];
    var bars, m := BarsOf(warm), |before.trades|;
    && m <= |after.trades| && after.trades[..m] == before.trades
    && (forall k | m <= k < |after.trades| && Enters(after.trades[k]) ::
          && after.trades[k].record == record && warm != []
          && Ready(cfg, record, bars, WaitIn(cfg, warm[..|warm| - 1], before.trades))
          && Momentum(cfg, bars, if after.trades[k].side == Buy then Red else Black))
    && (warm != [] && !IsOpen(AfterHole(SwitchContract(before, record), record, nextClose).engine)
        && Ready(cfg, record, bars, WaitIn(cfg, warm[..|warm| - 1], before.trades))
        && (Momentum(cfg, bars, Red) || Momentum(cfg, bars, Black)) ==>
          exists k :: m <= k < |after.trades| && Enters(after.trades[k]))
  }

  /** Every entry a replay logs has the full warm-up behind it, without a gap and outside the band, shows momentum
      over it, and does not come while the average stands still; and when no position is open, every such record
      enters. */
  lemma EntriesAreWarm(cfg: Config, records: seq<BarRecord>, nextClose: int -> int, tapes: Tapes)
    requires cfg.Usable() && TimeOrdered(records) && records != []
    ensures EntersWhenDue(cfg, records, nextClose, tapes)
  {
    hide ReplayOk, MemoryOk, Reviews, TimeOrdered, ReplayRecord, ReplayAll, IsWarmUp, EntersWhenDue;
    var n := |records| - 1;
    var earlier, record := records[..n], records[n];
    var before := ReplayAll(cfg, earlier, nextClose, tapes);
    ReplayLast(cfg, records, nextClose, tapes);
    OrderedEarlier(records);
    EveryReplayIsOk(cfg, earlier, nextClose, tapes);
    ReviewIsWarmUp(cfg, earlier, nextClose, tapes);
    ReviewIsWarmUp(cfg, records, nextClose, tapes);
    ReviewsEngine(before, earlier, nextClose);
    if n == 0 {
      NothingRemembered(cfg, record.bar.start - 1, record.bar.end);
      RecordEnters(cfg, before, records, nextClose, tapes, record.bar.start - 1, record.bar.end);
    } else {
      MemoryIsWarmUp(cfg, earlier, nextClose, tapes);
      RecordEnters(cfg, before, records, nextClose, tapes, records[n - 1].bar.start, records[n - 1].bar.end);
    }
  }

  lemma RecordEnters(cfg: Config, before: Replay, records: seq<BarRecord>, nextClose: int -> int, tapes: Tapes,
                     start: int, end: int)
    requires cfg.Usable() && records != [] && before == ReplayAll(cfg, records[..|records| - 1], nextClose, tapes)
    requires ReplayOk(cfg, before, start, end) && MemoryOk(cfg, before, start)
        && (before.engine.None? ==> before.review == [])
    requires records[|records| - 1].bar.start > start && records[|records| - 1].bar.end >= end
    requires Reviews(ReplayAll(cfg, records, nextClose, tapes), records, nextClose)
    ensures EntersWhenDue(cfg, records, nextClose, tapes)
  {
    var record := records[|records| - 1];
    PreparedOk(cfg, before, record, nextClose, start, end);
    PreparedRemembers(cfg, before, record, nextClose, start);
    var r := AfterHole(SwitchContract(before, record), record, nextClose);
    var after := ReplayAll(cfg, records, nextClose, tapes);
    assert after == ReplayRecord(cfg, before, record, nextClose, tapes);
    ReviewsWarmUp(after, records, nextClose);
    LastOfWarmUp(records, nextClose);
    hide ReplayAll, ReplayOk, MemoryOk, Reviews, Through, WaitIn, Remembers, Ready, Momentum, WarmUp;
    if record.bar.instrument == Mxf && (record.complete || r.engine.Some?) {
      ThroughIsWarm(cfg, r, record, tapes, start, end);
      var fed := Through(cfg, r, record, tapes);
      assert after.trades == before.trades + fed.trades;
      assert record.complete ==> after.review == r.review + [record] && after.review[..|after.review| - 1] == r.review;
      FedEnters(cfg, r, record, fed, records, nextClose, tapes);
    } else {
      assert after.trades == before.trades && after.trades[..|before.trades|] == before.trades;
    }
  }

  lemma FedEnters(cfg: Config, r: Replay, record: BarRecord, fed: Fed, records: seq<BarRecord>, nextClose: int -> int,
                  tapes: Tapes)
    requires cfg.Usable() && records != [] && record == records[|records| - 1] && ThroughWarm(cfg, r, record, fed)
    requires var before, after := ReplayAll(cfg, records[..|records| - 1], nextClose, tapes),
        ReplayAll(cfg, records, nextClose, tapes);
             && r == AfterHole(SwitchContract(before, record), record, nextClose) && r.trades == before.trades
             && after.trades == before.trades + fed.trades
    requires var warm := WarmUp(records, nextClose);
             if record.complete then warm == r.review + [record] else warm == []
    ensures EntersWhenDue(cfg, records, nextClose, tapes)
  {
    hide ReplayAll, WaitIn, Remembers, Momentum, WarmUp, Settled, AfterHole, SwitchContract, Enters;
    var before, after := ReplayAll(cfg, records[..|records| - 1], nextClose, tapes),
        ReplayAll(cfg, records, nextClose, tapes);
    var m := |before.trades|;
    assert after.trades[..m] == before.trades;
    assert forall k | 0 <= k < |fed.trades| :: after.trades[m + k] == fed.trades[k];
    assert forall k | m <= k < |after.trades| :: after.trades[k] == fed.trades[k - m];
    assert record.complete ==> WarmUp(records, nextClose)[..|r.review|] == r.review;
  }

  lemma MemoryMeans(cfg: Config, r: Replay, start: int)
    requires cfg.Usable() && MemoryOk(cfg, r, start) && r.engine.Some?
    ensures Remembers(cfg, r.engine.value, BarsOf(r.review))
        && (r.engine.value.waiting <==> WaitIn(cfg, r.review, r.trades))
  {
    hide Remembers, WaitIn;
  }
}
