/** The trades of a whole replay. */
module ReplayLog {
  import opened Domain
  import opened EngineModel
  import opened EngineProofs
  import opened ReplayModel
  import opened SkipProofs
  import opened ReplayProofs

  // ---- one close ----

  /** The two-lot entry a closed bar signals. */
  ghost predicate IsEntry(cfg: Config, t: HistoricalTrade, bar: Bar) {
    && t.decision.signal in {Some(EnterLong), Some(EnterShort)} && t.decision.at == bar.end
    && t.quantity == MAX_LOTS && t.side == (if t.decision.signal == Some(EnterLong) then Buy else Sell)
    && t.decision.rule == (if t.decision.signal == Some(EnterLong) then EnterLongRule else EnterShortRule)
    && t.decision.key == Some(IntentKey(bar.contract, t.decision.rule, AtInstant(bar.start)))
    && !cfg.InBand(bar.end)
  }

  function Direction(side: Side): PositionSide {
    if side == Buy then Long else Short
  }

  /** What a close does: exit or keep an open position, enter or stay flat otherwise. */
  ghost predicate ClosesWell(cfg: Config, s: State, bar: Bar, fed: Fed) {
    && Whole(fed.state) && fed.state.lastBarStart == Some(bar.start) && fed.state.lastPrice.Some?
    && fed.state.contract == s.contract && fed.state.instrument == s.instrument
    && |fed.trades| <= 1
    && (s.side != Flat && fed.trades == [] ==> fed.state.side == s.side && !cfg.InBand(bar.end))
    && (s.side != Flat && fed.trades != [] ==>
          fed.state.side == Flat && IsExit(cfg, s.(lastBarStart := Some(bar.start)), fed.trades[0], bar.end))
    && (s.side == Flat && fed.trades == [] ==> fed.state.side == Flat)
    && (s.side == Flat && fed.trades != [] ==>
          IsEntry(cfg, fed.trades[0], bar) && fed.state.side == Direction(fed.trades[0].side))
  }

  lemma CloseShape(cfg: Config, s: State, record: BarRecord)
    requires cfg.Usable() && Whole(s) && Tracks(s, record.bar)
    ensures ClosesWell(cfg, s, record.bar, Close(cfg, s, record))
  {
    var bar := record.bar;
    var input := Input(bar.end, Some(bar), BarClosed, record.complete, false, false);
    var armed := ArmBreakout(cfg, Absorb(cfg, s, bar), input);
    var ctx := ContextOf(cfg, armed, input);
    assert Held(armed) && armed.side == s.side && armed.lots == s.lots && armed.lastPrice == Some(bar.close);
    assert Close(cfg, s, record) == Accept(Decide(cfg, armed, ctx).state, record, Decide(cfg, armed, ctx).decision);
    hide ArmBreakout, Absorb, ContextOf, Close, MaOf;
    if s.side != Flat {
      AcceptExit(cfg, armed, record, ctx);
      hide Decide, Accept;
    } else {
      FlatDecides(cfg, armed, ctx);
      EntryShape(cfg, armed, record, ctx);
      hide Decide, CheckEntry, Accept;
    }
  }

  lemma EntryShape(cfg: Config, s: State, record: BarRecord, ctx: Context)
    requires cfg.Usable() && Held(s) && s.side == Flat && s.lastPrice.Some? && s.lastBarStart.Some?
    requires ctx.bar == Some(record.bar) && ctx.now == record.bar.end && Tracks(s, record.bar)
    ensures var fed := Accept(s, record, CheckEntry(cfg, s, ctx));
            && Whole(fed.state) && fed.state.lastBarStart == s.lastBarStart && fed.state.lastPrice == s.lastPrice
            && fed.state.contract == s.contract && fed.state.instrument == s.instrument
            && |fed.trades| <= 1
            && (fed.trades == [] ==> fed.state.side == Flat)
            && (fed.trades != [] ==>
                  IsEntry(cfg, fed.trades[0], record.bar) && fed.state.side == Direction(fed.trades[0].side))
  {
    var d := CheckEntry(cfg, s, ctx);
    if d.signal.Some? {
      assert d == CheckFlatEntry(cfg, s, ctx);
      assert d.signal in {Some(EnterLong), Some(EnterShort)};
      assert !cfg.InBand(ctx.now);
      hide CheckEntry, CheckFlatEntry;
      assert OnFill(s, SideOf(d), s.lastPrice.value, MAX_LOTS, d.at)
          == Opened(s, SideOf(d), s.lastPrice.value, MAX_LOTS, d.at);
    }
  }

  // ---- the log ----

  /** A trade and its key agree: dated keys are flattens inside the band of that date. */
  ghost predicate WellKeyed(cfg: Config, t: HistoricalTrade) {
    && t.decision.key.Some? && t.decision.key.value.rule == t.decision.rule
    && (t.decision.key.value.bucket.OnDate? <==> t.decision.rule == EodFlatten)
    && (t.decision.rule == EodFlatten ==>
          cfg.InBand(t.decision.at) && t.decision.key.value.bucket.day == DateOf(t.decision.at))
    && (t.decision.signal == Some(ExitAll) <==> t.decision.rule in {EodFlatten, StopLoss, ProfitPullback})
  }

  ghost predicate LogOk(cfg: Config, log: seq<HistoricalTrade>, start: int, end: int) {
    && (forall i | 0 <= i < |log| :: WellKeyed(cfg, log[i]) && log[i].decision.at <= end)
    && (forall i | 0 <= i < |log| && log[i].decision.key.value.bucket.AtInstant? ::
          log[i].decision.key.value.bucket.t <= start)
    && (forall i, j | 0 <= i < j < |log| :: log[i].decision.at <= log[j].decision.at)
    && (forall i, j | 0 <= i < j < |log| :: log[i].decision.key != log[j].decision.key)
  }

  /** Every later exit of the position entered by `b` has a key that trade `a` does not. */
  ghost predicate KeyBelow(cfg: Config, a: HistoricalTrade, b: HistoricalTrade) {
    && a.decision.key.Some?
    && (a.decision.key.value.bucket.AtInstant? ==>
          b.decision.key.Some? && b.decision.key.value.bucket.AtInstant?
          && a.decision.key.value.bucket.t < b.decision.key.value.bucket.t)
    && (a.decision.key.value.bucket.OnDate? ==>
          b.decision.at >= a.decision.key.value.bucket.day * DAY + cfg.entryGate)
  }

  /** An open position was entered by the last trade, at or before the last close. */
  ghost predicate OpenedBy(cfg: Config, log: seq<HistoricalTrade>, s: State, previous: BarRecord) {
    && log != []
    && var b := log[|log| - 1];
       && b.decision.signal in {Some(EnterLong), Some(EnterShort)}
       && s.side == Direction(b.side)
       && b.decision.at <= previous.bar.end && !cfg.InBand(previous.bar.end)
       && b.decision.key.Some? && b.decision.key.value.bucket.AtInstant?
       && b.decision.key.value.bucket.t <= previous.bar.start
       && (forall d :: !(b.decision.at < TickOf(cfg, d) <= previous.bar.end))
       && forall i | 0 <= i < |log| - 1 :: KeyBelow(cfg, log[i], b)
  }

  /** Two instants of the same date, the later outside the band, the earlier inside it. */
  lemma LeavesBand(cfg: Config, x: int, a: int)
    requires cfg.Usable() && cfg.InBand(x) && x <= a && !cfg.InBand(a)
    ensures a >= DateOf(x) * DAY + cfg.entryGate
  {
  }

  lemma BackInBand(cfg: Config, day: int, b: int, x: int)
    requires cfg.Usable() && b >= day * DAY + cfg.entryGate && x >= b && cfg.InBand(x)
    ensures DateOf(x) > day
  {
  }

  lemma AppendEntry(cfg: Config, log: seq<HistoricalTrade>, t: HistoricalTrade, bar: Bar, start: int, end: int)
    requires cfg.Usable() && LogOk(cfg, log, start, end) && IsEntry(cfg, t, bar) && bar.start > start && bar.end >= end
    ensures LogOk(cfg, log + [t], bar.start, bar.end)
    ensures forall i | 0 <= i < |log| :: KeyBelow(cfg, log[i], t)
  {
    forall i | 0 <= i < |log| ensures KeyBelow(cfg, log[i], t) && log[i].decision.key != t.decision.key {
      if log[i].decision.key.value.bucket.OnDate? {
        LeavesBand(cfg, log[i].decision.at, t.decision.at);
      }
    }
  }

  lemma AppendExit(cfg: Config, log: seq<HistoricalTrade>, t: HistoricalTrade, s: State, previous: BarRecord,
                   anchor: int, start: int, end: int, now: int)
    requires cfg.Usable() && LogOk(cfg, log, start, end) && OpenedBy(cfg, log, s, previous)
    requires s.lastBarStart == Some(anchor) && previous.bar.start <= anchor
    requires IsExit(cfg, s, t, now) && previous.bar.end <= now
    ensures LogOk(cfg, log + [t], if start < anchor then anchor else start, if end < now then now else end)
  {
    hide TickOf;
    var b := log[|log| - 1];
    assert WellKeyed(cfg, t);
    forall i | 0 <= i < |log| ensures log[i].decision.key != t.decision.key && log[i].decision.at <= now {
      if i < |log| - 1 {
        assert KeyBelow(cfg, log[i], b);
        assert log[i].decision.at <= b.decision.at;
        if log[i].decision.key.value.bucket.OnDate? && t.decision.rule == EodFlatten {
          BackInBand(cfg, log[i].decision.key.value.bucket.day, b.decision.at, now);
        }
      }
    }
  }

  // ---- one record ----

  ghost predicate ReplayOk(cfg: Config, r: Replay, start: int, end: int) {
    && LogOk(cfg, r.trades, start, end)
    && (r.engine.Some? <==> r.previous.Some?)
    && (r.engine.Some? ==>
          var s, p := r.engine.value, r.previous.value;
          && Whole(s) && s.lastBarStart == Some(p.bar.start) && p.bar.start <= start && p.bar.end <= end
          && s.contract == p.bar.contract && s.instrument == p.bar.instrument == Mxf
          && (s.side != Flat ==> OpenedBy(cfg, r.trades, s, p)))
  }

  /** What one record adds to the log, given the replay state it meets. */
  ghost predicate AddsWell(cfg: Config, r: Replay, record: BarRecord, fed: Fed) {
    && Whole(fed.state) && fed.state.lastBarStart == Some(record.bar.start)
    && fed.state.contract == record.bar.contract && fed.state.instrument == Mxf
    && LogOk(cfg, r.trades + fed.trades, record.bar.start, record.bar.end)
    && (fed.state.side != Flat ==> OpenedBy(cfg, r.trades + fed.trades, fed.state, record))
    && Steps(cfg, r, record, fed)
  }

  /** An open position yields nothing, an exit, or an exit and then an entry; a flat one at most an entry. */
  ghost predicate Steps(cfg: Config, r: Replay, record: BarRecord, fed: Fed) {
    var open := IsOpen(r.engine);
    && |fed.trades| <= 2
    && (forall i | 0 <= i < |fed.trades| :: fed.trades[i].quantity == MAX_LOTS)
    && (forall i | 0 <= i < |fed.trades| && fed.trades[i].decision.signal != Some(ExitAll) ::
          fed.trades[i].decision.at == record.bar.end)
    && (open && fed.trades != [] ==>
          && fed.trades[0].decision.signal == Some(ExitAll)
          && fed.trades[0].side == (if r.engine.value.side == Long then Sell else Buy)
          && (|fed.trades| == 2 ==> fed.trades[1].decision.signal != Some(ExitAll)))
    && (!open ==> |fed.trades| <= 1)
    && (!open && fed.trades != [] ==> fed.trades[0].decision.signal != Some(ExitAll))
    && (fed.state.side != Flat <==> (open <==> |fed.trades| % 2 == 0))
    && (open && r.previous.Some? ==> forall d :: r.previous.value.bar.end < TickOf(cfg, d) <= record.bar.end ==>
          fed.trades != [] && fed.trades[0].decision.at <= TickOf(cfg, d))
  }

  ghost predicate Meets(r: Replay, record: BarRecord, start: int, end: int) {
    && record.bar.instrument == Mxf && record.bar.start > start && record.bar.end >= end
    && (r.previous.Some? ==> r.previous.value.bar.contract == record.bar.contract)
  }

  /** From flat: nothing can happen before the close, and the close may enter. */
  lemma EntryOpens(cfg: Config, log: seq<HistoricalTrade>, t: HistoricalTrade, s: State, record: BarRecord)
    requires IsEntry(cfg, t, record.bar) && s.side == Direction(t.side) && forall i | 0 <= i < |log| ::
        KeyBelow(cfg, log[i], t)
    ensures OpenedBy(cfg, log + [t], s, record)
  {
    hide TickOf, KeyBelow;
    assert forall i | 0 <= i < |log| :: (log + [t])[i] == log[i];
  }

  lemma FlatAdds(cfg: Config, r: Replay, s: State, record: BarRecord, start: int, end: int)
    requires cfg.Usable() && ReplayOk(cfg, r, start, end) && Meets(r, record, start, end)
    requires !IsOpen(r.engine) && Whole(s) && s.side == Flat && Tracks(s, record.bar)
    ensures AddsWell(cfg, r, record, Close(cfg, s, record))
  {
    CloseShape(cfg, s, record);
    hide Close, IsExit, Sound, TickOf, Whole, LogOk, OpenedBy;
    var closed := Close(cfg, s, record);
    if closed.trades == [] {
      assert r.trades + closed.trades == r.trades;
      LogGrows(cfg, r.trades, start, end, record.bar.start, record.bar.end);
    } else {
      var t := closed.trades[0];
      assert closed.trades == [t];
      AppendEntry(cfg, r.trades, t, record.bar, start, end);
      EntryOpens(cfg, r.trades, t, closed.state, record);
    }
  }

  /** Open up to the close: the close exits or keeps the position. */
  lemma OpenedBySide(cfg: Config, log: seq<HistoricalTrade>, s: State, t: State, previous: BarRecord)
    requires OpenedBy(cfg, log, s, previous) && t.side == s.side
    ensures OpenedBy(cfg, log, t, previous)
  {
    hide TickOf, KeyBelow;
  }

  /** A position kept over a close without a 04:55 instant before it. */
  lemma StillOpened(cfg: Config, r: Replay, s: State, record: BarRecord)
    requires r.previous.Some? && IsOpen(r.engine) && OpenedBy(cfg, r.trades, r.engine.value, r.previous.value)
    requires s.side == r.engine.value.side && !cfg.InBand(record.bar.end)
    requires r.previous.value.bar.start <= record.bar.start && r.previous.value.bar.end <= record.bar.end
    requires forall d :: !(r.previous.value.bar.end < TickOf(cfg, d) <= record.bar.end)
    ensures OpenedBy(cfg, r.trades, s, record)
  {
    hide TickOf, KeyBelow;
  }

  lemma OpenAdds(cfg: Config, r: Replay, s: State, record: BarRecord, start: int, end: int)
    requires cfg.Usable() && ReplayOk(cfg, r, start, end) && Meets(r, record, start, end) && IsOpen(r.engine)
    requires SamePosition(r.engine.value, s) && Whole(s)
    requires forall d :: !(r.previous.value.bar.end < TickOf(cfg, d) <= record.bar.end)
    ensures AddsWell(cfg, r, record, Close(cfg, s, record))
  {
    hide Close, IsExit, Sound, TickOf, LogOk, OpenedBy, Mean, KeyBelow;
    CloseShape(cfg, s, record);
    var closed := Close(cfg, s, record);
    if closed.trades == [] {
      assert r.trades + closed.trades == r.trades;
      LogGrows(cfg, r.trades, start, end, record.bar.start, record.bar.end);
      StillOpened(cfg, r, closed.state, record);
    } else {
      var t := closed.trades[0];
      assert closed.trades == [t];
      var anchored := s.(lastBarStart := Some(record.bar.start));
      OpenedBySide(cfg, r.trades, r.engine.value, anchored, r.previous.value);
      AppendExit(cfg, r.trades, t, anchored, r.previous.value, record.bar.start, start, end, record.bar.end);
      ExitParts(cfg, anchored, t, record.bar.end);
    }
  }

  lemma ExitParts(cfg: Config, s: State, t: HistoricalTrade, now: int)
    requires IsExit(cfg, s, t, now)
    ensures t.quantity == |s.lots| && t.side == (if s.side == Long then Sell else Buy)
    ensures t.decision.signal == Some(ExitAll) && t.decision.at == now
  {
  }

  /** Closed before the close: an exit, then whatever the close adds to a flat engine. */
  lemma ExitThenAdds(cfg: Config, r: Replay, s: State, t: HistoricalTrade, record: BarRecord, start: int, end: int)
    requires cfg.Usable() && ReplayOk(cfg, r, start, end) && Meets(r, record, start, end) && IsOpen(r.engine)
    requires Whole(s) && s == Reset(r.engine.value).(lastPrice := s.lastPrice)
    requires IsExit(cfg, r.engine.value, t, t.decision.at)
    requires r.previous.value.bar.end <= t.decision.at <= record.bar.end
    requires forall d :: r.previous.value.bar.end < TickOf(cfg, d) <= record.bar.end ==> t.decision.at <= TickOf(cfg, d)
    ensures var closed := Close(cfg, s, record); AddsWell(cfg, r, record, Fed(closed.state, [t] + closed.trades))
  {
    hide Close, IsExit, Sound, TickOf, LogOk, OpenedBy;
    var p := r.previous.value;
    AppendExit(cfg, r.trades, t, r.engine.value, p, p.bar.start, start, end, t.decision.at);
    ExitParts(cfg, r.engine.value, t, t.decision.at);
    var exited := Replay(None, None, r.trades + [t], []);
    var end' := if end < t.decision.at then t.decision.at else end;
    assert ReplayOk(cfg, exited, start, end');
    FlatAdds(cfg, exited, s, record, start, end');
    var closed := Close(cfg, s, record);
    assert r.trades + ([t] + closed.trades) == (r.trades + [t]) + closed.trades;
  }

  lemma ThroughAdds(cfg: Config, r: Replay, record: BarRecord, tapes: Tapes, start: int, end: int)
    requires cfg.Usable() && ReplayOk(cfg, r, start, end) && Meets(r, record, start, end)
    ensures AddsWell(cfg, r, record, Through(cfg, r, record, tapes))
  {
    hide Close, IsExit, TickOf, BetweenCloses, LogOk, OpenedBy, AddsWell;
    if r.engine.None? {
      var s := Fresh(record.bar.instrument, record.bar.contract);
      FlatAdds(cfg, r, s, record, start, end);
      assert [] + Close(cfg, s, record).trades == Close(cfg, s, record).trades;
    } else {
      var s, tape := r.engine.value, TapeFor(tapes, record);
      BetweenSpan(cfg, s, r.previous.value, record, tape);
      var between := BetweenCloses(cfg, s, r.previous.value, record, tape);
      var closed := Close(cfg, between.state, record);
      hide Sound;
      assert Through(cfg, r, record, tapes) == Fed(closed.state, between.trades + closed.trades);
      if between.trades != [] {
        assert between.trades == [between.trades[0]];
        OnlyOpenExits(cfg, s, between.trades[0]);
        ExitThenAdds(cfg, r, between.state, between.trades[0], record, start, end);
      } else {
        assert between.trades + closed.trades == closed.trades;
        if s.side == Flat {
          FlatAdds(cfg, r, between.state, record, start, end);
        } else {
          OpenAdds(cfg, r, between.state, record, start, end);
        }
      }
    }
  }

  lemma OnlyOpenExits(cfg: Config, s: State, t: HistoricalTrade)
    requires IsExit(cfg, s, t, t.decision.at)
    ensures s.side != Flat
  {
  }

  // ---- the whole replay ----

  /** Bars in time order with distinct labels. */
  ghost predicate TimeOrdered(records: seq<BarRecord>) {
    forall i, j | 0 <= i < j < |records| ::
      records[i].bar.start < records[j].bar.start && records[i].bar.end <= records[j].bar.end
  }

  lemma PreparedOk(cfg: Config, r0: Replay, record: BarRecord, nextClose: int -> int, start: int, end: int)
    requires cfg.Usable() && ReplayOk(cfg, r0, start, end)
    ensures var r := AfterHole(SwitchContract(r0, record), record, nextClose);
            && ReplayOk(cfg, r, start, end) && r.trades == r0.trades
            && (record.bar.instrument == Mxf && r.previous.Some?
                ==> r.previous.value.bar.contract == record.bar.contract)
            && (IsOpen(r.engine) ==>
                  IsOpen(r0.engine) && r.previous == r0.previous && r.engine.value.side == r0.engine.value.side)
            && (IsOpen(r0.engine) && record.bar.instrument == Mxf
                && r0.previous.value.bar.contract == record.bar.contract ==>
                  IsOpen(r.engine))
  {
    hide LogOk, TickOf;
  }

  lemma RecordKeepsOk(cfg: Config, r0: Replay, record: BarRecord, nextClose: int -> int, tapes: Tapes, start: int,
                      end: int)
    requires cfg.Usable() && ReplayOk(cfg, r0, start, end) && record.bar.start > start && record.bar.end >= end
    ensures ReplayOk(cfg, ReplayRecord(cfg, r0, record, nextClose, tapes), record.bar.start, record.bar.end)
  {
    hide Through, LogOk, OpenedBy, TickOf, Steps;
    PreparedOk(cfg, r0, record, nextClose, start, end);
    var r := AfterHole(SwitchContract(r0, record), record, nextClose);
    LogGrows(cfg, r0.trades, start, end, record.bar.start, record.bar.end);
    if record.bar.instrument == Mxf && (record.complete || r.engine.Some?) {
      ThroughAdds(cfg, r, record, tapes, start, end);
      var fed := Through(cfg, r, record, tapes);
      assert Whole(ResetHistory(fed.state));
      ResetKeepsOpened(cfg, r.trades + fed.trades, fed.state, record);
    }
  }

  lemma LogGrows(cfg: Config, log: seq<HistoricalTrade>, start: int, end: int, start': int, end': int)
    requires LogOk(cfg, log, start, end) && start <= start' && end <= end'
    ensures LogOk(cfg, log, start', end')
  {
  }

  lemma ResetKeepsOpened(cfg: Config, log: seq<HistoricalTrade>, s: State, record: BarRecord)
    ensures OpenedBy(cfg, log, s, record) ==> OpenedBy(cfg, log, ResetHistory(s), record)
  {
    hide TickOf;
  }

  lemma {:induction false} EveryReplayIsOk(cfg: Config, records: seq<BarRecord>, nextClose: int -> int, tapes: Tapes)
    requires cfg.Usable() && TimeOrdered(records)
    ensures var r := ReplayAll(cfg, records, nextClose, tapes);
            if records == [] then r == NOTHING_REPLAYED
            else ReplayOk(cfg, r, records[|records| - 1].bar.start, records[|records| - 1].bar.end)
  {
    hide ReplayRecord, LogOk, OpenedBy, TickOf, Whole;
    if records != [] {
      var n := |records| - 1;
      var before, record := ReplayAll(cfg, records[..n], nextClose, tapes), records[n];
      EveryReplayIsOk(cfg, records[..n], nextClose, tapes);
      if n == 0 {
        assert records[..n] == [];
        EmptyLogOk(cfg, record.bar.start - 1, record.bar.end);
        RecordKeepsOk(cfg, before, record, nextClose, tapes, record.bar.start - 1, record.bar.end);
      } else {
        RecordKeepsOk(cfg, before, record, nextClose, tapes, records[n - 1].bar.start, records[n - 1].bar.end);
      }
    }
  }

  lemma EmptyLogOk(cfg: Config, start: int, end: int)
    ensures LogOk(cfg, [], start, end)
  {
  }

  /** Over time-ordered bars with distinct labels, of any contracts, a replay emits its trades in time
      order and never reuses an intent key. */
  lemma TradesAreOrderedWithDistinctKeys(cfg: Config, records: seq<BarRecord>, nextClose: int -> int, tapes: Tapes)
    requires cfg.Usable() && TimeOrdered(records)
    ensures var log := ReplayAll(cfg, records, nextClose, tapes).trades;
            && (forall i, j | 0 <= i < j < |log| :: log[i].decision.at <= log[j].decision.at)
            && (forall i | 0 <= i < |log| :: log[i].decision.key.Some?)
            && (forall i, j | 0 <= i < j < |log| :: log[i].decision.key != log[j].decision.key)
  {
    EveryReplayIsOk(cfg, records, nextClose, tapes);
    hide ReplayAll;
  }

  // ---- one contract ----

  ghost predicate OneContract(records: seq<BarRecord>) {
    forall i | 0 <= i < |records| :: records[i].bar.instrument == Mxf
        && records[i].bar.contract == records[0].bar.contract
  }

  /** A two-lot entry, its two-lot opposite exit, and so on. */
  ghost predicate Alternates(log: seq<HistoricalTrade>) {
    && (forall i | 0 <= i < |log| ::
          log[i].quantity == MAX_LOTS && (log[i].decision.signal == Some(ExitAll) <==> i % 2 == 1))
    && (forall i | 0 < i < |log| && i % 2 == 1 :: log[i].side == Opposite(log[i - 1].side))
  }

  /** No entry outlives a 04:55 instant up to `end`. */
  ghost predicate NeverHeldOver(cfg: Config, log: seq<HistoricalTrade>, end: int) {
    forall i, d :: 0 <= i < |log| && i % 2 == 0 && log[i].decision.at < TickOf(cfg, d) <= end ==>
      i + 1 < |log| && log[i + 1].decision.at <= TickOf(cfg, d)
  }

  lemma AddingAlternates(cfg: Config, r: Replay, record: BarRecord, fed: Fed)
    requires Steps(cfg, r, record, fed) && Alternates(r.trades) && (IsOpen(r.engine) <==> |r.trades| % 2 == 1)
    requires IsOpen(r.engine) ==> r.trades[|r.trades| - 1].side == (if r.engine.value.side == Long then Buy else Sell)
    ensures Alternates(r.trades + fed.trades) && (fed.state.side != Flat <==> |r.trades + fed.trades| % 2 == 1)
  {
    hide TickOf;
    var log, all := r.trades, r.trades + fed.trades;
    forall i | 0 <= i < |all|
      ensures all[i].quantity == MAX_LOTS && (all[i].decision.signal == Some(ExitAll) <==> i % 2 == 1)
    {
      if i < |log| {
        assert all[i] == log[i];
      } else {
        assert all[i] == fed.trades[i - |log|];
      }
    }
    forall i | 0 < i < |all| && i % 2 == 1 ensures all[i].side == Opposite(all[i - 1].side) {
      if i < |log| {
        assert all[i] == log[i] && all[i - 1] == log[i - 1];
      } else {
        assert i == |log| && all[i] == fed.trades[0] && all[i - 1] == log[i - 1];
      }
    }
  }

  lemma AddingNeverHeldOver(cfg: Config, r: Replay, record: BarRecord, fed: Fed, end: int)
    requires Steps(cfg, r, record, fed) && Alternates(r.trades) && (IsOpen(r.engine) <==> |r.trades| % 2 == 1)
    requires NeverHeldOver(cfg, r.trades, end) && end <= record.bar.end
    requires forall i | 0 <= i < |r.trades| :: r.trades[i].decision.at <= end
    requires IsOpen(r.engine) ==> r.previous.Some? && r.previous.value.bar.end <= end
    ensures NeverHeldOver(cfg, r.trades + fed.trades, record.bar.end)
  {
    hide TickOf;
    var log, all := r.trades, r.trades + fed.trades;
    forall i | |log| <= i < |all| && i % 2 == 0 ensures all[i].decision.at == record.bar.end {
      assert all[i] == fed.trades[i - |log|];
    }
    forall i, d | 0 <= i < |log| && i % 2 == 0 && all[i].decision.at < TickOf(cfg, d) <= record.bar.end
      ensures i + 1 < |all| && all[i + 1].decision.at <= TickOf(cfg, d)
    {
      assert all[i] == log[i];
      if i + 1 < |log| {
        assert all[i + 1] == log[i + 1];
      } else {
        assert TickOf(cfg, d) > end;
        assert fed.trades != [] && all[i + 1] == fed.trades[0];
      }
    }
  }

  ghost predicate OneContractOk(cfg: Config, r: Replay, contract: string, end: int) {
    && Alternates(r.trades) && NeverHeldOver(cfg, r.trades, end)
    && (IsOpen(r.engine) <==> |r.trades| % 2 == 1)
    && (r.previous.Some? ==> r.previous.value.bar.contract == contract)
  }

  lemma RecordKeepsOneContract(cfg: Config, r0: Replay, record: BarRecord, nextClose: int -> int, tapes: Tapes,
                               start: int, end: int)
    requires cfg.Usable() && ReplayOk(cfg, r0, start, end) && record.bar.start > start && record.bar.end >= end
    requires record.bar.instrument == Mxf && OneContractOk(cfg, r0, record.bar.contract, end)
    ensures OneContractOk(cfg, ReplayRecord(cfg, r0, record, nextClose, tapes), record.bar.contract, record.bar.end)
  {
    PreparedOk(cfg, r0, record, nextClose, start, end);
    var r := AfterHole(SwitchContract(r0, record), record, nextClose);
    hide TickOf, Through, Whole, AfterHole, SwitchContract;
    if record.complete || r.engine.Some? {
      ThroughAdds(cfg, r, record, tapes, start, end);
      var fed := Through(cfg, r, record, tapes);
      if IsOpen(r.engine) {
        LastSide(cfg, r, start, end);
      }
      hide OpenedBy, Steps, Alternates, NeverHeldOver;
      AddingAlternates(cfg, r, record, fed);
      AddingNeverHeldOver(cfg, r, record, fed, end);
    } else {
      NothingHeldOver(cfg, r.trades, end, record.bar.end);
    }
  }

  lemma LastSide(cfg: Config, r: Replay, start: int, end: int)
    requires ReplayOk(cfg, r, start, end) && IsOpen(r.engine)
    ensures r.trades != [] && r.trades[|r.trades| - 1].side == (if r.engine.value.side == Long then Buy else Sell)
  {
    hide TickOf, LogOk, Whole;
  }

  lemma NothingHeldOver(cfg: Config, log: seq<HistoricalTrade>, end: int, end': int)
    requires NeverHeldOver(cfg, log, end) && |log| % 2 == 0 && end <= end'
    requires forall i | 0 <= i < |log| :: log[i].decision.at <= end
    ensures NeverHeldOver(cfg, log, end')
  {
    hide TickOf;
  }

  /** Replaying one contract: two-lot entries and opposite two-lot exits strictly alternate, the engine is
      left open exactly after an unmatched entry, and nothing is held across a covered 04:55 instant. */
  lemma {:induction false} OneContractAlternates(cfg: Config, records: seq<BarRecord>, nextClose: int -> int,
                                                 tapes: Tapes)
    requires cfg.Usable() && TimeOrdered(records) && OneContract(records)
    ensures var r := ReplayAll(cfg, records, nextClose, tapes);
            && Alternates(r.trades) && (IsOpen(r.engine) <==> |r.trades| % 2 == 1)
            && (records != [] ==>
                  && NeverHeldOver(cfg, r.trades, records[|records| - 1].bar.end)
                  && (r.previous.Some? ==> r.previous.value.bar.contract == records[0].bar.contract))
  {
    hide TickOf, ReplayRecord;
    if records != [] {
      OneContractRuns(cfg, records, nextClose, tapes);
    }
  }

  lemma {:induction false} OneContractRuns(cfg: Config, records: seq<BarRecord>, nextClose: int -> int, tapes: Tapes)
    requires cfg.Usable() && TimeOrdered(records) && OneContract(records) && records != []
    ensures OneContractOk(cfg, ReplayAll(cfg, records, nextClose, tapes), records[0].bar.contract,
                          records[|records| - 1].bar.end)
  {
    hide ReplayRecord, ReplayOk, OneContractOk;
    var n := |records| - 1;
    var record := records[n];
    if n == 0 {
      assert records[..n] == [];
      EmptyReplayOk(cfg, record.bar.start - 1, record.bar.end, record.bar.contract);
      RecordKeepsOneContract(cfg, NOTHING_REPLAYED, record, nextClose, tapes, record.bar.start - 1, record.bar.end);
    } else {
      var before := ReplayAll(cfg, records[..n], nextClose, tapes);
      OneContractRuns(cfg, records[..n], nextClose, tapes);
      EveryReplayIsOk(cfg, records[..n], nextClose, tapes);
      RecordKeepsOneContract(cfg, before, record, nextClose, tapes, records[n - 1].bar.start, records[n - 1].bar.end);
    }
  }

  lemma EmptyReplayOk(cfg: Config, start: int, end: int, contract: string)
    ensures ReplayOk(cfg, NOTHING_REPLAYED, start, end) && OneContractOk(cfg, NOTHING_REPLAYED, contract, end)
  {
    hide TickOf;
  }

  /** Signed lots after a log. */
  function Net(log: seq<HistoricalTrade>): int {
    if log == [] then 0 else Net(log[..|log| - 1]) + Signed(log[|log| - 1].side, log[|log| - 1].quantity)
  }

  /** After every trade of an alternating log the position is -2, 0 or +2 lots. */
  lemma {:induction false} NetStaysWhole(log: seq<HistoricalTrade>, k: nat)
    requires Alternates(log) && k <= |log|
    ensures Net(log[..k]) == if k % 2 == 0 then 0 else Signed(log[k - 1].side, MAX_LOTS)
  {
    if k > 0 {
      NetStaysWhole(log, k - 1);
      assert log[..k][..k - 1] == log[..k - 1];
    }
  }
}
