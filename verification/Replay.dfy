/** The replay as it runs: one engine object, fed record by record. */
module HistoryReplay {
  import opened Domain
  import opened EngineModel
  import opened Engine
  import opened ReplayModel

  /** Keep the decision's trade, if any, and confirm its assumed fill to the engine. */
  method AcceptDecision(engine: StrategySignalEngine, record: BarRecord, d: Decision)
                        returns (trades: seq<HistoricalTrade>)
    modifies engine
    ensures engine.streak == old(engine.streak)
    ensures var fed := Accept(old(engine.Snapshot()), record, d);
            engine.Snapshot() == fed.state && trades == fed.trades
  {
    if !d.passed || d.signal.None? || d.price.None? {
      return [];
    }
    var side := SideOf(d);
    var quantity := if d.signal == Some(ExitAll) then d.lots else MAX_LOTS;
    var _ := engine.OnFillConfirmed(side, d.price.value, quantity, d.at);
    trades := [HistoricalTrade(record, d, side, quantity)];
  }

  method FeedTrade(engine: StrategySignalEngine, record: BarRecord, price: real, at: int)
                   returns (trades: seq<HistoricalTrade>)
    requires engine.cfg.Usable()
    modifies engine
    ensures engine.streak == old(engine.streak)
    ensures var fed := FeedOne(engine.cfg, old(engine.Snapshot()), record, price, at);
            engine.Snapshot() == fed.state && trades == fed.trades
  {
    hide Accept, OnTrade;
    var d := engine.OnTradePrice(price, at, false, false);
    trades := AcceptDecision(engine, record, d);
  }

  /** Feeds every trade before `before` that could move an exit; returns where to resume. */
  method FeedExits(engine: StrategySignalEngine, record: BarRecord, tape: Tape, c: Cursor, before: int)
    returns (trades: seq<HistoricalTrade>, since: Cursor)
    requires engine.cfg.Usable() && OnTape(tape, c)
    modifies engine
    ensures engine.streak == old(engine.streak)
    ensures var e := TradeExits(engine.cfg, old(engine.Snapshot()), record, tape, c, before);
            engine.Snapshot() == e.state && trades == e.trades && since == e.cursor
  {
    hide FeedOne, ExitWatchPrices, FirstBeyond, StopLossPrice;
    trades, since := [], c;
    var bar, cfg := record.bar, engine.cfg;
    ghost var goal := TradeExits(cfg, engine.Snapshot(), record, tape, c, before);
    var band := ExitWatchPrices(cfg, engine.Snapshot());
    while band.Some?
      invariant OnTape(tape, since) && band == ExitWatchPrices(cfg, engine.Snapshot())
          && engine.streak == old(engine.streak)
      invariant var rest := TradeExits(cfg, engine.Snapshot(), record, tape, since, before);
                goal == Exits(rest.state, trades + rest.trades, rest.cursor)
      decreases |tape| - Next(tape, since), if CursorTime(tape, since) < bar.start then 1 else 0
    {
      var start := CursorTime(tape, since);
      if start >= bar.start && BarInside(bar, band.value) {
        break;
      }
      var windowEnd := WindowEnd(bar, start, before);
      var hit := FirstBeyond(tape, Next(tape, since), windowEnd, band.value);
      if hit.None? {
        if windowEnd < before {
          NextAdvances(tape, since, windowEnd);
          since := From(windowEnd);
          continue;
        }
        var stop := StopLossPrice(cfg, engine.Snapshot());
        if start >= bar.start && stop.Some? && ReachesStop(engine.side, bar, stop.value) {
          var fills := FeedTrade(engine, record, StopFillPrice(engine.side, bar, stop.value), before);
          trades := trades + fills;
        }
        return;
      }
      var fed := FeedTrade(engine, record, tape[hit.value].price, tape[hit.value].at);
      ghost var rest := TradeExits(cfg, engine.Snapshot(), record, tape, After(hit.value), before);
      assert trades + (fed + rest.trades) == (trades + fed) + rest.trades;
      trades := trades + fed;
      since := After(hit.value);
      band := ExitWatchPrices(cfg, engine.Snapshot());
    }
    assert trades + [] == trades;
  }

  /** The 04:55 instants between two closes, then the trades up to the close. */
  method FeedBetween(engine: StrategySignalEngine, previous: BarRecord, record: BarRecord, tape: Option<Tape>)
    returns (trades: seq<HistoricalTrade>)
    requires engine.cfg.Usable()
    modifies engine
    ensures engine.streak == old(engine.streak)
    ensures var fed := BetweenCloses(engine.cfg, old(engine.Snapshot()), previous, record, tape);
            engine.Snapshot() == fed.state && trades == fed.trades
  {
    hide TradeExits, AtTick, MaybeExits;
    trades := [];
    var since: Cursor := From(previous.bar.end);
    var cfg, day := engine.cfg, DateOf(previous.bar.end);
    ghost var goal := Days(cfg, engine.Snapshot(), previous, record, tape, since, day);
    while day <= DateOf(record.bar.end)
      invariant OnMaybeTape(tape, since) && engine.streak == old(engine.streak)
      invariant var rest := Days(cfg, engine.Snapshot(), previous, record, tape, since, day);
                goal == Exits(rest.state, trades + rest.trades, rest.cursor)
    {
      var tick := TickOf(cfg, day);
      if previous.bar.end < tick <= record.bar.end {
        var now, next := FeedTick(engine, previous, record, tape, since, tick);
        ghost var rest := Days(cfg, engine.Snapshot(), previous, record, tape, next, day + 1);
        assert trades + (now + rest.trades) == (trades + now) + rest.trades;
        trades, since := trades + now, next;
      } else {
        assert [] + Days(cfg, engine.Snapshot(), previous, record, tape, since, day + 1).trades
            == Days(cfg, engine.Snapshot(), previous, record, tape, since, day + 1).trades;
      }
      day := day + 1;
    }
    assert trades + [] == trades;
    var last, _ := FeedMaybe(engine, record, tape, since, record.bar.end);
    trades := trades + last;
  }

  method FeedMaybe(engine: StrategySignalEngine, record: BarRecord, tape: Option<Tape>, c: Cursor, before: int)
    returns (trades: seq<HistoricalTrade>, since: Cursor)
    requires engine.cfg.Usable() && OnMaybeTape(tape, c)
    modifies engine
    ensures engine.streak == old(engine.streak)
    ensures var e := MaybeExits(engine.cfg, old(engine.Snapshot()), record, tape, c, before);
            engine.Snapshot() == e.state && trades == e.trades && since == e.cursor
  {
    hide TradeExits;
    if tape.None? {
      return [], c;
    }
    trades, since := FeedExits(engine, record, tape.value, c, before);
  }

  method FeedTick(engine: StrategySignalEngine, previous: BarRecord, record: BarRecord, tape: Option<Tape>, c: Cursor,
                  tick: int)
    returns (trades: seq<HistoricalTrade>, since: Cursor)
    requires engine.cfg.Usable() && OnMaybeTape(tape, c)
    modifies engine
    ensures engine.streak == old(engine.streak)
    ensures var e := AtTick(engine.cfg, old(engine.Snapshot()), previous, record, tape, c, tick);
            engine.Snapshot() == e.state && trades == e.trades && since == e.cursor
  {
    hide MaybeExits, FeedOne, Accept, OnTick;
    trades, since := FeedMaybe(engine, record, tape, c, tick);
    ghost var a := trades;
    if tape.Some? && engine.side != Flat {
      var last := LastAtOrBefore(tape.value, since, tick);
      if last.Some? {
        var priced := FeedTrade(engine, record, tape.value[last.value].price, tape.value[last.value].at);
        trades, since := trades + priced, After(last.value);
      }
    }
    assert a + [] == a;
    var d := engine.OnClockTick(tick, false, false);
    var flattened := AcceptDecision(engine, previous, d);
    trades := trades + flattened;
  }

  /** Everything up to and including the record's close. */
  method FeedThrough(engine: StrategySignalEngine, previous: Option<BarRecord>, record: BarRecord, tapes: Tapes)
    returns (trades: seq<HistoricalTrade>)
    requires engine.cfg.Usable() && engine.instrument == record.bar.instrument && engine.contract == record.bar.contract
    modifies engine, engine.streak
    ensures engine.streak == old(engine.streak)
    ensures var s := old(engine.Snapshot());
            var between := if previous.Some? then BetweenCloses(engine.cfg, s, previous.value, record,
                TapeFor(tapes, record))
                           else Fed(s, []);
            var closed := Close(engine.cfg, between.state, record);
            engine.Snapshot() == closed.state && trades == between.trades + closed.trades
  {
    hide BetweenCloses, Accept, OnBar;
    trades := [];
    if previous.Some? {
      trades := FeedBetween(engine, previous.value, record, TapeFor(tapes, record));
    }
    var d := engine.OnBarClosed(record.bar, record.complete, false, false);
    var closed := AcceptDecision(engine, record, d.value);
    trades := trades + closed;
  }

  /** The engine follows the contract of the bar it last saw. */
  ghost predicate Follows(engine: StrategySignalEngine?, cfg: Config, previous: Option<BarRecord>) {
    engine != null ==>
      engine.cfg == cfg && engine.instrument == Mxf && previous.Some? && engine.contract == previous.value.bar.contract
  }

  /** Replays all records: the trades, the engine as it is left, and the bars in the current warm-up. */
  method ReplayHistoryState(cfg: Config, records: seq<BarRecord>, nextClose: int -> int, tapes: Tapes)
    returns (trades: seq<HistoricalTrade>, engine: StrategySignalEngine?, review: seq<BarRecord>)
    requires cfg.Usable()
    ensures var r := ReplayAll(cfg, records, nextClose, tapes);
            && trades == r.trades && review == r.review
            && (engine == null <==> r.engine.None?)
            && (engine != null ==> fresh(engine) && engine.Snapshot() == r.engine.value)
  {
    hide ReplayRecord;
    trades, engine, review := [], null, [];
    var previous: Option<BarRecord> := None;
    for k := 0 to |records|
      invariant var r := ReplayAll(cfg, records[..k], nextClose, tapes);
                && trades == r.trades && review == r.review && previous == r.previous
                && (engine == null <==> r.engine.None?)
                && (engine != null ==> engine.Snapshot() == r.engine.value)
      invariant engine != null ==> fresh(engine) && fresh(engine.streak)
      invariant Follows(engine, cfg, previous)
    {
      assert records[..k + 1][..k] == records[..k];
      trades, engine, previous, review := ReplayOne(cfg, records[k], nextClose, tapes, trades, engine, previous,
          review);
    }
    assert records[..|records|] == records;
  }

  method ReplayOne(cfg: Config, record: BarRecord, nextClose: int -> int, tapes: Tapes, trades0: seq<HistoricalTrade>,
                   engine0: StrategySignalEngine?, previous0: Option<BarRecord>, review0: seq<BarRecord>)
    returns (trades: seq<HistoricalTrade>, engine: StrategySignalEngine?, previous: Option<BarRecord>,
        review: seq<BarRecord>)
    requires cfg.Usable() && Follows(engine0, cfg, previous0)
    modifies engine0, if engine0 != null then {engine0.streak} else {}
    ensures var r0 := Replay(if engine0 == null then None
        else Some(old(engine0.Snapshot())), previous0, trades0, review0);
            var r := ReplayRecord(cfg, r0, record, nextClose, tapes);
            && trades == r.trades && previous == r.previous && review == r.review
            && (engine == null <==> r.engine.None?)
            && (engine != null ==> engine.Snapshot() == r.engine.value)
    ensures Follows(engine, cfg, previous)
    ensures engine != null && engine != engine0 ==> fresh(engine)
    ensures engine != null ==> fresh(engine.streak) || (engine == engine0 && engine.streak == old(engine0.streak))
  {
    hide BetweenCloses, Close, TapeFor;
    ghost var r0 := Replay(if engine0 == null then None else Some(engine0.Snapshot()), previous0, trades0, review0);
    trades, engine, previous, review := trades0, engine0, previous0, review0;
    if record.bar.instrument != Mxf || (previous.Some? && previous.value.bar.contract != record.bar.contract) {
      engine, previous, review := null, None, [];
    }
    if record.bar.instrument != Mxf {
      return;
    }
    if !record.complete || (previous.Some? && nextClose(previous.value.bar.end) != record.bar.end) {
      review := [];
      if engine != null && engine.side != Flat {
        engine.ResetMarketHistory();
      } else {
        engine, previous := null, None;
      }
    }
    ghost var r := AfterHole(SwitchContract(r0, record), record, nextClose);
    assert (engine == null <==> r.engine.None?) && (engine != null ==> engine.Snapshot() == r.engine.value);
    assert trades == r.trades && previous == r.previous && review == r.review;
    hide AfterHole, SwitchContract;
    if !record.complete && engine == null {
      return;
    }
    if engine == null {
      engine := new StrategySignalEngine(cfg, record.bar.instrument, record.bar.contract);
    }
    var fed := FeedThrough(engine, previous, record, tapes);
    trades := trades + fed;
    previous := Some(record);
    if record.complete {
      review := review + [record];
    } else {
      engine.ResetMarketHistory();
    }
  }
}
