/** When the skip over recorded trades differs from feeding every one of them, read off the tape alone. */
module SkipExact {
  import opened Domain
  import opened EngineModel
  import opened EngineProofs
  import opened ReplayModel
  import opened SkipProofs

  /** The peak followed over the trades from `i` up to `k`. */
  function RunningPeak(cfg: Config, s: State, tape: Tape, i: nat, k: nat): Option<real>
    requires s.side != Flat && s.lots != [] && i <= k <= |tape|
    decreases k
  {
    if i == k then StoredPeak(s)
    else FollowedPeak(cfg, RunningPeak(cfg, s, tape, i, k - 1), Points(s.side, tape[k - 1].price, Mean(s.lots)))
  }

  /** The adverse edge that trade `k` meets. */
  function EdgeAt(cfg: Config, s: State, tape: Tape, i: nat, k: nat): real
    requires s.side != Flat && s.lots != [] && i <= k < |tape|
  {
    FollowedEdge(cfg, s, RunningPeak(cfg, s, tape, i, k + 1))
  }

  /** No trade from `i` up to `j` is at or past the adverse edge for the peak up to it. */
  ghost predicate Survives(cfg: Config, s: State, tape: Tape, i: nat, j: nat)
    requires s.side != Flat && s.lots != [] && i <= j <= |tape|
  {
    forall k | i <= k < j :: !AtOrPast(s.side, tape[k].price, EdgeAt(cfg, s, tape, i, k))
  }

  /** One trade outside the flatten band: it exits exactly at the followed edge, and is followed otherwise. */
  lemma FeedOneFollows(cfg: Config, s: State, record: BarRecord, price: real, at: int)
    requires cfg.Usable() && Held(s) && s.side != Flat && !cfg.InBand(at)
    ensures var fed := FeedOne(cfg, s, record, price, at);
            var peak := FollowedPeak(cfg, StoredPeak(s), Points(s.side, price, Mean(s.lots)));
            && Held(fed.state)
            && (fed.trades == [] <==> !AtOrPast(s.side, price, FollowedEdge(cfg, s, peak)))
            && (fed.trades == [] ==> SamePosition(s, fed.state) && StoredPeak(fed.state) == peak)
            && (fed.trades != [] ==> fed.state.side == Flat)
  {
    FeedOneShape(cfg, s, record, price, at);
    ExitsAtFollowedEdge(cfg, s, price, at, false);
    FedExactlyOnSignal(cfg, s, record, price, at);
    var fed := FeedOne(cfg, s, record, price, at);
    if fed.trades == [] {
      TradeTracks(cfg, s, price, at, false, false);
      StopIsCovered(cfg, s, price, FollowedPeak(cfg, StoredPeak(s), Points(s.side, price, Mean(s.lots))));
    }
    hide FeedOne, OnTrade, Mean, FollowedEdge, IsExit, FollowedPeak, Points;
  }

  lemma StopIsCovered(cfg: Config, s: State, price: real, peak: Option<real>)
    requires s.side != Flat && s.lots != [] && !AtOrPast(s.side, price, FollowedEdge(cfg, s, peak))
    ensures Points(s.side, price, Mean(s.lots)) > -cfg.stopLoss
  {
    hide Mean, KeptPoints;
  }

  lemma FedExactlyOnSignal(cfg: Config, s: State, record: BarRecord, price: real, at: int)
    requires cfg.Usable() && Held(s) && s.side != Flat
    ensures var fed, o := FeedOne(cfg, s, record, price, at), OnTrade(cfg, s, price, at, false, false);
            && (fed.trades != [] <==> o.decision.signal == Some(ExitAll))
            && (fed.trades == [] ==> fed.state == o.state)
  {
    hide Decide, MaOf, Choppy, Mean, OnFill;
    var priced := s.(lastPrice := Some(price));
    var input := Input(at, None, TradePrice, true, false, false);
    assert ArmBreakout(cfg, priced, input) == priced;
    DecideToExit(cfg, priced, ContextOf(cfg, priced, input));
  }

  lemma {:induction false} PeakRunsOn(cfg: Config, s: State, t: State, tape: Tape, i: nat, k: nat)
    requires s.side != Flat && s.lots != [] && i < k <= |tape| && t.side == s.side && t.lots == s.lots
    requires StoredPeak(t) == FollowedPeak(cfg, StoredPeak(s), Points(s.side, tape[i].price, Mean(s.lots)))
    ensures RunningPeak(cfg, t, tape, i + 1, k) == RunningPeak(cfg, s, tape, i, k)
    decreases k
  {
    hide FollowedPeak, Points, Mean, StoredPeak;
    if k > i + 1 {
      PeakRunsOn(cfg, s, t, tape, i, k - 1);
    } else {
      assert RunningPeak(cfg, s, tape, i, i) == StoredPeak(s);
    }
  }

  /** Feeding every trade leaves the position open if and only if it survives each of them. */
  lemma {:induction false} FeedLeavesOpen(cfg: Config, s: State, record: BarRecord, tape: Tape, i: nat, j: nat)
    requires cfg.Usable() && Held(s) && s.side != Flat && s.lots != [] && i <= j <= |tape|
    requires forall k | i <= k < j :: !cfg.InBand(tape[k].at)
    ensures Feed(cfg, s, record, tape, i, j).state.side != Flat <==> Survives(cfg, s, tape, i, j)
    decreases j - i
  {
    hide FeedOne, FollowedPeak, FollowedEdge, Points, Sound, StoredPeak, ExitWatchPrices, Mean, AtOrPast;
    if i < j {
      FeedOneFollows(cfg, s, record, tape[i].price, tape[i].at);
      var first := FeedOne(cfg, s, record, tape[i].price, tape[i].at);
      var rest := Feed(cfg, first.state, record, tape, i + 1, j);
      assert Feed(cfg, s, record, tape, i, j).state == rest.state;
      assert RunningPeak(cfg, s, tape, i, i + 1)
          == FollowedPeak(cfg, StoredPeak(s), Points(s.side, tape[i].price, Mean(s.lots))) by {
        assert RunningPeak(cfg, s, tape, i, i) == StoredPeak(s);
      }
      if first.trades != [] {
        FeedQuiet(cfg, first.state, record, tape, i + 1, j);
      } else {
        FeedLeavesOpen(cfg, first.state, record, tape, i + 1, j);
        SurvivesOn(cfg, s, first.state, tape, i, j);
      }
    }
  }

  lemma SurvivesOn(cfg: Config, s: State, t: State, tape: Tape, i: nat, j: nat)
    requires s.side != Flat && s.lots != [] && i < j <= |tape| && t.side == s.side && t.lots == s.lots
    requires StoredPeak(t) == FollowedPeak(cfg, StoredPeak(s), Points(s.side, tape[i].price, Mean(s.lots)))
    requires !AtOrPast(s.side, tape[i].price, EdgeAt(cfg, s, tape, i, i))
    ensures Survives(cfg, s, tape, i, j) <==> Survives(cfg, t, tape, i + 1, j)
  {
    hide FollowedPeak, AdverseEdge, Points, Mean, StoredPeak, RunningPeak, AtOrPast;
    forall k | i < k < j
      ensures EdgeAt(cfg, s, tape, i, k) == EdgeAt(cfg, t, tape, i + 1, k)
    {
      PeakRunsOn(cfg, s, t, tape, i, k + 1);
    }
    hide EdgeAt;
  }

  /** The window touches a bar that reached the stop, and no trade of the window would have closed the
      position. */
  ghost predicate StopUnrecorded(cfg: Config, s: State, record: BarRecord, tape: Tape, c: Cursor, before: int)
    requires OnTape(tape, c)
  {
    && s.side != Flat && s.lots != []
    && BarReachesStop(cfg, s, record.bar)
    && (CursorTime(tape, c) >= record.bar.start || record.bar.start < before)
    && Survives(cfg, s, tape, Next(tape, c), Limit(tape, c, before))
  }

  /** On a window outside the flatten band whose trades respect the bar, skipping agrees with feeding every
      trade if and only if the bar did not reach a stop that every trade of the window survives. */
  lemma SkipAgreesExactly(cfg: Config, s: State, record: BarRecord, tape: Tape, c: Cursor, before: int)
    requires cfg.Usable() && Held(s) && OnTape(tape, c) && Consistent(cfg, record, tape, c, before)
    ensures Agree(cfg, s, record, tape, c, before) <==> !StopUnrecorded(cfg, s, record, tape, c, before)
    ensures StopUnrecorded(cfg, s, record, tape, c, before) ==> AssumedFill(cfg, s, record, tape, c, before)
  {
    hide Agree, AssumedFill, Feed, Sound, Survives;
    AgreesUnlessUnrecorded(cfg, s, record, tape, c, before);
    SkipRefinesFeed(cfg, s, record, tape, c, before);
    if s.side != Flat {
      OpenHasLots(s);
      FeedLeavesOpen(cfg, s, record, tape, Next(tape, c), Limit(tape, c, before));
    }
  }

  lemma OpenHasLots(s: State)
    requires Held(s) && s.side != Flat
    ensures s.lots != []
  {
  }

  // ---- the assumed fill ----

  /** Some price between the bar's low and high. */
  predicate Traded(bar: Bar, price: real) {
    bar.low <= price <= bar.high
  }

  /** A bar reached the stop exactly when its range holds a price at or past it, and the assumed fill is then the one
      of those nearest the open: the stop, or the open itself if the bar opened beyond the stop. */
  lemma AssumedFillIsNearestOpen(side: PositionSide, bar: Bar, stop: real)
    requires side != Flat && bar.Valid()
    ensures ReachesStop(side, bar, stop) <==> exists p :: Traded(bar, p) && AtOrPast(side, p, stop)
    ensures ReachesStop(side, bar, stop) ==>
              var fill := StopFillPrice(side, bar, stop);
              && Traded(bar, fill) && AtOrPast(side, fill, stop)
              && forall p | Traded(bar, p) && AtOrPast(side, p, stop) :: Abs(fill - bar.open) <= Abs(p - bar.open)
  {
    if ReachesStop(side, bar, stop) {
      assert Traded(bar, StopFillPrice(side, bar, stop));
    }
  }

  // ---- a window where they differ ----

  /** Two lots bought at 20000, last seen at 20010. */
  const HELD := Fresh(Mxf, "202510").(side := Long, lots := [LotFill(20000.0, 0), LotFill(20000.0, 0)],
                                      activeBasis := Some(20000.0), lastPrice := Some(20010.0),
                                          lastBarStart := Some(HOUR))

  lemma HeldIsSound()
    ensures Held(HELD) && HELD.side == Long && Mean(HELD.lots) == 20000.0
    ensures ExitWatchPrices(DEFAULT_CONFIG, HELD) == Some(Band(19700.0, 20300.0))
        && StopLossPrice(DEFAULT_CONFIG, HELD) == Some(19700.0)
  {
    var lots := HELD.lots;
    assert SumPrices(lots[..1]) == 20000.0 by {
      assert SumPrices(lots[..1][..0]) == 0.0;
    }
    assert SumPrices(lots) == SumPrices(lots[..1]) + 20000.0;
  }

  /** The 04:00 bar fell to 19600 at some time, its only trade before 04:55 is at 20000: the search up to 04:55
      assumes an exit at the stop, 19700, while feeding the trade leaves the position open. */
  lemma AssumedFillExample()
    ensures var cfg, tape: Tape, c := DEFAULT_CONFIG, [Print(4 * HOUR, 20000.0)], From(4 * HOUR);
            var record := BarRecord(Bar(Mxf, "202510", 20000.0, 20000.0, 19600.0, 19650.0, 9, 4 * HOUR, 5 * HOUR),
                true);
            var before := cfg.eodFlatten;
            var fast, full := TradeExits(cfg, HELD, record, tape, c, before), Fully(cfg, HELD, record, tape, c, before);
            && Consistent(cfg, record, tape, c, before) && StopUnrecorded(cfg, HELD, record, tape, c, before)
            && |fast.trades| == 1 && fast.trades[0].decision.at == before
                && fast.trades[0].decision.price == Some(19700.0)
            && full.trades == [] && full.state.side == Long
  {
    var cfg, tape: Tape, c := DEFAULT_CONFIG, [Print(4 * HOUR, 20000.0)], From(4 * HOUR);
    var record := BarRecord(Bar(Mxf, "202510", 20000.0, 20000.0, 19600.0, 19650.0, 9, 4 * HOUR, 5 * HOUR), true);
    var before := cfg.eodFlatten;
    HeldIsSound();
    assert LowerBound(tape, 4 * HOUR) == 0 && LowerBound(tape, before) == 1;
    assert !cfg.InBand(4 * HOUR);
    assert Consistent(cfg, record, tape, c, before);
    FeedQuiet(cfg, HELD, record, tape, 0, 1);
    FeedLeavesOpen(cfg, HELD, record, tape, 0, 1);
    hide Feed, TradeExits, Survives, Sound, ExitWatchPrices;
    SkipAgreesExactly(cfg, HELD, record, tape, c, before);
  }
}
