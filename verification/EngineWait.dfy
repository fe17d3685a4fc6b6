/** The wait for a breakout, and with it the whole entry rule, in terms of the closed bars alone. */
module EngineWait {
  import opened Domain
  import opened MovingAverage
  import opened EngineModel
  import opened EngineProofs

  /** How far the average moved `k` bars ago: the close that came in against the close that went out. */
  function Change(bars: seq<Bar>, window: nat, k: nat): real
    requires 0 < window && window + k < |bars|
  {
    var n := |bars| - k;
    Abs((bars[n - 1].close - bars[n - 1 - window].close) / window as real)
  }

  /** The last `flatLookback + 1` moves of the average all exist and are under the threshold. */
  ghost predicate Settled(cfg: Config, bars: seq<Bar>)
    requires cfg.Usable()
  {
    && |bars| > cfg.maWindow + cfg.flatLookback
    && forall k: nat | k <= cfg.flatLookback :: Change(bars, cfg.maWindow, k) < cfg.flatThreshold
  }

  // ---- the averages ----

  /** The `k`-th newest move of a series. */
  function Move(ma: seq<real>, k: nat): real
    requires k + 1 < |ma|
  {
    Abs(ma[|ma| - 1 - k] - ma[|ma| - 2 - k])
  }

  lemma {:induction false} SmallChangesAre(ma: seq<real>, threshold: real, m: nat)
    ensures SmallChanges(ma, threshold) >= m <==>
              m == 0 || (|ma| > m && forall k: nat | k < m :: Move(ma, k) < threshold)
  {
    if m > 0 && |ma| > m {
      var shorter := ma[..|ma| - 1];
      SmallChangesAre(shorter, threshold, m - 1);
      assert SmallChanges(ma, threshold) == if Move(ma, 0) >= threshold then 0
          else 1 + SmallChanges(shorter, threshold);
      forall k: nat | k < m - 1 ensures Move(shorter, k) == Move(ma, k + 1) {
      }
      hide Move;
      if forall k: nat | k < m - 1 :: Move(shorter, k) < threshold {
        forall k: nat | 0 < k < m ensures Move(ma, k) < threshold {
          assert Move(shorter, k - 1) == Move(ma, k);
        }
      }
    } else if m > 0 {
      SmallChangesBound(ma, threshold);
    }
  }

  lemma {:induction false} SmallChangesBound(ma: seq<real>, threshold: real)
    ensures SmallChanges(ma, threshold) <= (if |ma| == 0 then 0 else |ma| - 1)
  {
    if |ma| >= 2 {
      SmallChangesBound(ma[..|ma| - 1], threshold);
    }
  }

  /** Two neighbouring averages differ by one move. */
  lemma MaChange(bars: seq<Bar>, window: nat, count: nat, k: nat)
    requires window > 0 && window + k < |bars|
    requires k + 1 < |Series(Closes(bars), window, count)|
    ensures var ma := Series(Closes(bars), window, count);
            Move(ma, k) == Change(bars, window, k)
  {
    var closes := Closes(bars);
    var ma := Series(closes, window, count);
    var shorter := closes[..|closes| - k];
    hide Sma;
    assert ma[|ma| - 1 - k] == Sma(shorter, window).value;
    assert closes[..|closes| - (k + 1)] == shorter[..|shorter| - 1];
    assert ma[|ma| - 2 - k] == Sma(shorter[..|shorter| - 1], window).value;
    SmaStep(shorter, window);
  }

  lemma SettledIsSmall(cfg: Config, s: State, bars: seq<Bar>)
    requires cfg.Usable() && Remembers(cfg, s, bars)
    ensures SmallChanges(MaOf(cfg, s), cfg.flatThreshold) >= cfg.flatLookback + 1 <==> Settled(cfg, bars)
  {
    hide MaOf, Remembers, Change, Move, Series, SmallChanges;
    AveragesIgnoreTruncation(cfg, s, bars);
    var ma := Series(Closes(bars), cfg.maWindow, cfg.flatLookback + 2);
    SmallChangesAre(ma, cfg.flatThreshold, cfg.flatLookback + 1);
    assert |ma| > cfg.flatLookback + 1 <==> |bars| > cfg.maWindow + cfg.flatLookback;
    if |bars| > cfg.maWindow + cfg.flatLookback {
      forall k: nat | k <= cfg.flatLookback ensures Move(ma, k) == Change(bars, cfg.maWindow, k) {
        MaChange(bars, cfg.maWindow, cfg.flatLookback + 2, k);
      }
    }
  }

  lemma ChoppyIs(cfg: Config, s: State, bars: seq<Bar>)
    requires cfg.Usable() && Remembers(cfg, s, bars) && |bars| >= cfg.maWindow + cfg.flatLookback
    ensures Choppy(cfg, s) <==> s.waiting && Change(bars, cfg.maWindow, 0) < cfg.flatThreshold
  {
    AveragesIgnoreTruncation(cfg, s, bars);
    hide MaOf, Remembers, Change, Abs;
    var ma := Series(Closes(bars), cfg.maWindow, cfg.flatLookback + 2);
    MaChange(bars, cfg.maWindow, cfg.flatLookback + 2, 0);
    hide Series;
  }

  // ---- the wait over a run ----

  /** Event `i` is a reliable bar after which the average has settled. */
  ghost predicate Arms(cfg: Config, start: State, events: seq<Event>, i: int)
    requires cfg.Usable() && 0 <= i < |events|
  {
    && events[i].BarEvent? && events[i].reliable && Tracks(start, events[i].bar)
    && Settled(cfg, History(cfg, start, events[..i + 1]))
  }

  /** Only a reset of the history or an opening fill ends the wait. */
  predicate Clears(s: State, e: Event) {
    || e.ResetEvent?
    || (e.FillEvent? && OpeningSide(s, e.side) && FillAccepted(s, e.side, e.quantity))
  }

  /** Some reliable bar found the average settled, and since then neither the history was reset nor a position
      opened or added to. */
  ghost predicate Waits(cfg: Config, start: State, events: seq<Event>)
    requires cfg.Usable()
  {
    exists i :: 0 <= i < |events| && Arms(cfg, start, events, i)
      && forall j | i < j < |events| :: !Clears(Run(cfg, start, events[..j]), events[j])
  }

  lemma ArmsEarlier(cfg: Config, start: State, events: seq<Event>, n: nat, i: nat)
    requires cfg.Usable() && i < n <= |events|
    ensures Arms(cfg, start, events[..n], i) <==> Arms(cfg, start, events, i)
  {
    hide Settled, History;
    assert events[..n][..i + 1] == events[..i + 1];
  }

  /** One event at a time: armed by this bar, or waiting before and not cleared. */
  lemma WaitsStep(cfg: Config, start: State, events: seq<Event>)
    requires cfg.Usable() && events != []
    ensures var n := |events| - 1;
            Waits(cfg, start, events) <==>
              Arms(cfg, start, events, n) || (Waits(cfg, start, events[..n])
                  && !Clears(Run(cfg, start, events[..n]), events[n]))
  {
    hide Arms, Clears, Run;
    var n := |events| - 1;
    var earlier := events[..n];
    if Waits(cfg, start, events) {
      var i :| 0 <= i < |events| && Arms(cfg, start, events, i)
               && forall j | i < j < |events| :: !Clears(Run(cfg, start, events[..j]), events[j]);
      if i < n {
        ArmsEarlier(cfg, start, events, n, i);
        assert forall j | 0 <= j < n :: earlier[..j] == events[..j] && earlier[j] == events[j];
      }
    }
    if Waits(cfg, start, earlier) && !Clears(Run(cfg, start, earlier), events[n]) {
      var i :| 0 <= i < n && Arms(cfg, start, earlier, i)
               && forall j | i < j < n :: !Clears(Run(cfg, start, earlier[..j]), earlier[j]);
      ArmsEarlier(cfg, start, events, n, i);
      assert forall j | 0 <= j < n :: earlier[..j] == events[..j] && earlier[j] == events[j];
    }
  }

  /** What one event does to the wait. */
  lemma StepWaits(cfg: Config, s: State, bars: seq<Bar>, e: Event)
    requires cfg.Usable() && Remembers(cfg, s, bars)
    ensures Step(cfg, s, e).waiting <==>
              || (e.BarEvent? && e.reliable && Tracks(s, e.bar) && Settled(cfg, bars + [e.bar]))
              || (s.waiting && !Clears(s, e))
  {
    match e
    case BarEvent(bar, r, a, u) =>
      if Tracks(s, bar) {
        AbsorbRemembers(cfg, s, bars, bar);
        SettledIsSmall(cfg, Absorb(cfg, s, bar), bars + [bar]);
        var input := Input(bar.end, Some(bar), BarClosed, r, a, u);
        EvaluateWaits(cfg, Absorb(cfg, s, bar), input);
        hide Evaluate, Settled, MaOf, Remembers;
      }
    case TradeEvent(price, at, a, u) =>
      EvaluateWaits(cfg, s.(lastPrice := Some(price)), Input(at, None, TradePrice, true, a, u));
      hide Evaluate;
    case TickEvent(now, a, u) =>
      EvaluateWaits(cfg, s, Input(now, None, ClockTick, true, a, u));
      hide Evaluate;
    case FillEvent(side, price, quantity, at) => hide Mean;
    case ResetEvent =>
  }

  lemma EvaluateWaits(cfg: Config, s: State, input: Input)
    requires cfg.Usable()
    ensures Evaluate(cfg, s, input).state.waiting <==>
              s.waiting || (input.bar.Some? && input.reliable
                  && SmallChanges(MaOf(cfg, s), cfg.flatThreshold) >= cfg.flatLookback + 1)
  {
    var armed := ArmBreakout(cfg, s, input);
    DecideKeepsWait(cfg, armed, ContextOf(cfg, armed, input));
    hide Decide, ContextOf;
  }

  lemma DecideKeepsWait(cfg: Config, s: State, ctx: Context)
    ensures Decide(cfg, s, ctx).state.waiting == s.waiting
  {
  }

  /** In every run the engine waits for a breakout exactly when some reliable bar since the last reset or opening
      fill found the last moves of the average all under the threshold. */
  lemma {:induction false} WaitIsExact(cfg: Config, instrument: Instrument, contract: string, events: seq<Event>)
    requires cfg.Usable()
    ensures Run(cfg, Fresh(instrument, contract), events).waiting <==> Waits(cfg, Fresh(instrument, contract), events)
  {
    var start := Fresh(instrument, contract);
    if events != [] {
      var n := |events| - 1;
      var earlier, e := events[..n], events[n];
      WaitIsExact(cfg, instrument, contract, earlier);
      RunRemembers(cfg, start, earlier);
      WaitsStep(cfg, start, events);
      StepWaits(cfg, Run(cfg, start, earlier), History(cfg, start, earlier), e);
      assert events[..n + 1] == events;
      hide Step, Waits, Settled, Remembers, Clears;
    }
  }

  // ---- the entry rule ----

  /** Everything an entry needs besides momentum, of the run before and its bars: flat, asked for reliably and
      without doubt, outside the band, a full history, and no wait for a breakout that has not come. */
  ghost predicate EntryOpen(cfg: Config, start: State, events: seq<Event>, e: Event)
    requires cfg.Usable() && e.BarEvent?
  {
    var bars := History(cfg, start, events + [e]);
    && Run(cfg, start, events).side == Flat && e.reliable && !e.activeOrder && !e.uncertain
    && !cfg.InBand(e.bar.end)
    && |bars| >= cfg.maWindow + cfg.flatLookback
    && (Waits(cfg, start, events + [e]) ==> Change(bars, cfg.maWindow, 0) >= cfg.flatThreshold)
  }

  /** In every run an entry is signalled exactly by momentum when an entry is open: for the default configuration,
      two red (black) bars, the newest close above (below) the one 20 bars earlier, at least 25 closes since the
      last reset, outside 04:55 to 10:45, and the average moving if it had settled before. */
  lemma EntryExactly(cfg: Config, instrument: Instrument, contract: string, events: seq<Event>, e: Event)
    requires cfg.Usable() && e.BarEvent? && Tracks(Fresh(instrument, contract), e.bar)
    ensures var start := Fresh(instrument, contract);
            var bars := History(cfg, start, events + [e]);
            var signal := OnBar(cfg, Run(cfg, start, events), e.bar, e.reliable, e.activeOrder,
                e.uncertain).decision.signal;
            && (signal == Some(EnterLong) <==> EntryOpen(cfg, start, events, e) && Momentum(cfg, bars, Red))
            && (signal == Some(EnterShort) <==> EntryOpen(cfg, start, events, e) && Momentum(cfg, bars, Black))
  {
    var start := Fresh(instrument, contract);
    var before, earlier := Run(cfg, start, events), History(cfg, start, events);
    RunRemembers(cfg, start, events);
    RunKeepsSound(cfg, start, events);
    assert (events + [e])[..|events|] == events;
    EntryAt(cfg, before, earlier, e);
    WaitIsExact(cfg, instrument, contract, events + [e]);
    ArmedWaits(cfg, before, earlier, e);
    hide Run, Waits, Momentum, Remembers, Sound, OnBar, Change;
  }

  /** The bar is judged with the wait it leaves behind. */
  lemma ArmedWaits(cfg: Config, before: State, earlier: seq<Bar>, e: Event)
    requires cfg.Usable() && e.BarEvent? && Remembers(cfg, before, earlier) && Tracks(before, e.bar)
    ensures var bars, armed := earlier + [e.bar], Armed(cfg, before, e);
            && armed.waiting == Step(cfg, before, e).waiting && armed.side == before.side
            && (|bars| >= cfg.maWindow + cfg.flatLookback ==>
                  (Choppy(cfg, armed) <==> armed.waiting && Change(bars, cfg.maWindow, 0) < cfg.flatThreshold))
  {
    AbsorbRemembers(cfg, before, earlier, e.bar);
    var bars, armed := earlier + [e.bar], Armed(cfg, before, e);
    var input := Input(e.bar.end, Some(e.bar), BarClosed, e.reliable, e.activeOrder, e.uncertain);
    DecideKeepsWait(cfg, armed, ContextOf(cfg, armed, input));
    assert Remembers(cfg, armed, bars);
    if |bars| >= cfg.maWindow + cfg.flatLookback {
      ChoppyIs(cfg, armed, bars);
    }
    hide Decide, ContextOf, Choppy, Remembers, Change;
  }
}
