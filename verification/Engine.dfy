/** The strategy signal engine as a function of its state: what each input does to it. */
module EngineModel {
  import opened Domain
  import opened MovingAverage

  datatype PositionSide = Flat | Long | Short
  datatype Trigger = BarClosed | TradePrice | ClockTick
  /** The signals this engine produces; it never adds to a position. */
  datatype SignalKind = EnterLong | EnterShort | ExitAll
  datatype Rule = EodFlatten | StopLoss | ProfitPullback | EnterLongRule | EnterShortRule | NoSignal

  /** An intent key names a contract, a rule and a bucket: a date for the 04:55 flatten,
      an instant otherwise. */
  datatype Bucket = OnDate(day: int) | AtInstant(t: int)
  datatype IntentKey = IntentKey(contract: string, rule: Rule, bucket: Bucket)

  datatype LotFill = LotFill(price: real, at: int)

  datatype Config = Config(maWindow: nat, flatLookback: nat, flatThreshold: real, stopLoss: real, activation: real,
                           pullback: real, entryGate: int, eodFlatten: int)
  {
    /** What the defaults satisfy and the engine's own arithmetic relies on. */
    predicate Usable() {
      && maWindow > 0
      && flatLookback > 0
      && activation > 0.0
      && 0 <= eodFlatten < entryGate < DAY
    }

    /** The recurring daily band [04:55, 10:45). */
    predicate InBand(t: int) {
      eodFlatten <= TimeOfDay(t) < entryGate
    }

    predicate EntryWindow(t: int) {
      TimeOfDay(t) < eodFlatten || TimeOfDay(t) >= entryGate
    }

    function MaxHistory(): nat {
      maWindow + flatLookback + 5
    }
  }

  const DEFAULT_CONFIG := Config(20, 5, 10.0, 300.0, 300.0, 0.3, 10 * HOUR + 3 * (HOUR / 4), 4 * HOUR
      + 11 * (HOUR / 12))

  datatype Streak = Streak(color: Option<CandleColor>, length: nat)

  /** A doji empties the streak, the same colour extends it, another colour restarts it. */
  function NextStreak(s: Streak, color: CandleColor): Streak {
    if color == Doji then Streak(None, 0)
    else if s.color == Some(color) then Streak(s.color, s.length + 1)
    else Streak(Some(color), 1)
  }

  const NO_STREAK := Streak(None, 0)

  datatype State = State(instrument: Instrument, contract: string, closes: seq<real>, streak: Streak,
                         lastPrice: Option<real>, lastBarStart: Option<int>, side: PositionSide, lots: seq<LotFill>,
                         closedQuantity: int, activeBasis: Option<real>, profitActivated: bool,
                         maxFavorable: Option<real>, waiting: bool)

  function Fresh(instrument: Instrument, contract: string): State {
    State(instrument, contract, [], NO_STREAK, None, None, Flat, [], 0, None, false, None, false)
  }

  datatype Context = Context(now: int, bar: Option<Bar>, trigger: Trigger, reliable: bool, activeOrder: bool,
                             uncertain: bool, ma: seq<real>, samples: nat, choppy: bool)

  datatype Decision = Decision(key: Option<IntentKey>, at: int, trigger: Trigger, bar: Option<Bar>, price: Option<real>,
                               maValue: Option<real>, maPrevious: Option<real>, slope: Slope, samples: nat,
                               entryGateOpen: bool, side: PositionSide, lots: int, stopBasis: Option<real>,
                               tracking: bool, maxFavorable: Option<real>, signal: Option<SignalKind>, rule: Rule,
                               passed: bool)

  // ---- read-only views ----

  function SumPrices(lots: seq<LotFill>): real {
    if |lots| == 0 then 0.0 else SumPrices(lots[..|lots| - 1]) + lots[|lots| - 1].price
  }

  function Mean(lots: seq<LotFill>): real
    requires lots != []
  {
    SumPrices(lots) / |lots| as real
  }

  function ProfitBasis(s: State): Option<real> {
    if s.lots == [] then None else Some(Mean(s.lots))
  }

  /** Points in favour of the held direction. */
  function Points(side: PositionSide, price: real, basis: real): real
    requires side != Flat
  {
    if side == Long then price - basis else basis - price
  }

  /** The price that lies `points` in favour of the held direction. */
  function PriceAt(side: PositionSide, basis: real, points: real): real {
    if side == Long then basis + points else basis - points
  }

  function StopLossPrice(cfg: Config, s: State): Option<real> {
    if s.side == Flat || s.activeBasis.None? then None
    else if s.side == Long then Some(s.activeBasis.value - cfg.stopLoss)
    else Some(s.activeBasis.value + cfg.stopLoss)
  }

  datatype Band = Band(low: real, high: real)

  /** The prices a replay must watch: at or below `low`, at or above `high`. */
  function ExitWatchPrices(cfg: Config, s: State): Option<Band> {
    var basis, stop := ProfitBasis(s), StopLossPrice(cfg, s);
    if stop.None? || basis.None? then None
    else Some(WatchBand(cfg, s.side, basis.value, stop.value, if s.profitActivated then s.maxFavorable else None))
  }

  function WatchBand(cfg: Config, side: PositionSide, basis: real, stop: real, peak: Option<real>): Band {
    var adverse, favourable := AdverseEdge(cfg, side, basis, stop, peak), FavourableEdge(cfg, side, basis, peak);
    if side == Long then Band(adverse, favourable) else Band(favourable, adverse)
  }

  /** The points still kept when the allowed share of the peak is given back. */
  function KeptPoints(peak: real, ratio: real): real {
    peak * (1.0 - ratio)
  }

  /** The stop, or the pullback from the tracked peak if that is met first. */
  function AdverseEdge(cfg: Config, side: PositionSide, basis: real, stop: real, peak: Option<real>): real {
    if peak.None? then stop
    else
      var pullback := PriceAt(side, basis, KeptPoints(peak.value, cfg.pullback));
      if side == Long then (if stop > pullback then stop else pullback)
          else (if stop < pullback then stop else pullback)
  }

  /** The tracked peak, or the price that starts tracking. */
  function FavourableEdge(cfg: Config, side: PositionSide, basis: real, peak: Option<real>): real {
    PriceAt(side, basis, if peak.Some? then peak.value else cfg.activation)
  }

  // ---- the four checks, in priority order ----

  function BucketFor(s: State, rule: Rule, ctx: Context): Bucket {
    match rule
    case EodFlatten => OnDate(DateOf(ctx.now))
    case StopLoss | ProfitPullback => AtInstant(if s.lastBarStart.Some? then s.lastBarStart.value else ctx.now)
    case _ => AtInstant(if ctx.bar.Some? then ctx.bar.value.start else ctx.now)
  }

  function Make(cfg: Config, s: State, ctx: Context, rule: Rule, signal: Option<SignalKind>): Decision {
    Decision(if signal.Some? then Some(IntentKey(s.contract, rule, BucketFor(s, rule, ctx))) else None,
             ctx.now, ctx.trigger, ctx.bar, s.lastPrice, Newest(ctx.ma), SecondNewest(ctx.ma),
             DetermineSlope(Newest(ctx.ma), SecondNewest(ctx.ma)), ctx.samples, cfg.EntryWindow(ctx.now),
             s.side, |s.lots| - s.closedQuantity, s.activeBasis, s.profitActivated, s.maxFavorable, signal, rule,
             signal.Some?)
  }

  /** An exit that another order in flight turns into a recorded non-signal. */
  function ExitUnlessActive(cfg: Config, s: State, ctx: Context, rule: Rule): Decision {
    Make(cfg, s, ctx, rule, if ctx.activeOrder then None else Some(ExitAll))
  }

  function CheckEod(cfg: Config, s: State, ctx: Context): Option<Decision> {
    if s.side == Flat || !cfg.InBand(ctx.now) then None
    else Some(ExitUnlessActive(cfg, s, ctx, EodFlatten))
  }

  function CheckStopLoss(cfg: Config, s: State, ctx: Context): Option<Decision> {
    if s.side == Flat || s.activeBasis.None? || s.lastPrice.None? then None
    else if Points(s.side, s.lastPrice.value, s.activeBasis.value) > -cfg.stopLoss then None
    else Some(ExitUnlessActive(cfg, s, ctx, StopLoss))
  }

  /** The tracking part of the pullback check: activate at the threshold, then follow the peak. */
  function TrackProfit(cfg: Config, s: State): State {
    if s.side == Flat || s.lots == [] || s.lastPrice.None? then s
    else
      var points := Points(s.side, s.lastPrice.value, Mean(s.lots));
      if !s.profitActivated then
        if points < cfg.activation then s else s.(profitActivated := true, maxFavorable := Some(points))
      else if s.maxFavorable.None? || points > s.maxFavorable.value then s.(maxFavorable := Some(points))
      else s
  }

  /** The share of the peak that has been given back. */
  function Retracement(peak: real, points: real): real
    requires peak != 0.0
  {
    (peak - points) / peak
  }

  /** The deciding part, on the tracked state. */
  function CheckPullback(cfg: Config, s: State, ctx: Context): Option<Decision> {
    if s.side == Flat || s.lots == [] || s.lastPrice.None? || !s.profitActivated || s.maxFavorable.None?
       || s.maxFavorable.value == 0.0 then None
    else if Retracement(s.maxFavorable.value, Points(s.side, s.lastPrice.value, Mean(s.lots))) < cfg.pullback
    then None
    else Some(ExitUnlessActive(cfg, s, ctx, ProfitPullback))
  }

  function CheckFlatEntry(cfg: Config, s: State, ctx: Context): Decision {
    var slope := DetermineSlope(Newest(ctx.ma), SecondNewest(ctx.ma));
    if s.streak.color == Some(Red) && s.streak.length >= 2 then
      if slope == Up then Make(cfg, s, ctx, EnterLongRule, Some(EnterLong)) else Make(cfg, s, ctx, NoSignal, None)
    else if s.streak.color == Some(Black) && s.streak.length >= 2 then
      if slope == Down then Make(cfg, s, ctx, EnterShortRule, Some(EnterShort)) else Make(cfg, s, ctx, NoSignal, None)
    else Make(cfg, s, ctx, NoSignal, None)
  }

  function CheckEntry(cfg: Config, s: State, ctx: Context): Decision {
    if ctx.bar.None? || !ctx.reliable || |ctx.ma| == 0 || |ctx.ma| - 1 < cfg.flatLookback || ctx.choppy
       || !cfg.EntryWindow(ctx.now) || ctx.uncertain || ctx.activeOrder || s.side != Flat
    then Make(cfg, s, ctx, NoSignal, None)
    else CheckFlatEntry(cfg, s, ctx)
  }

  // ---- inputs ----

  datatype Outcome = Outcome(state: State, decision: Decision)

  datatype Input = Input(now: int, bar: Option<Bar>, trigger: Trigger, reliable: bool, activeOrder: bool,
      uncertain: bool)

  function MaOf(cfg: Config, s: State): seq<real>
    requires cfg.Usable()
  {
    Series(s.closes, cfg.maWindow, cfg.flatLookback + 2)
  }

  /** A long enough run of small changes arms the wait for a breakout. */
  function ArmBreakout(cfg: Config, s: State, input: Input): State
    requires cfg.Usable()
  {
    if input.bar.Some? && input.reliable && SmallChanges(MaOf(cfg, s), cfg.flatThreshold) >= cfg.flatLookback + 1
    then s.(waiting := true) else s
  }

  function Choppy(cfg: Config, s: State): bool
    requires cfg.Usable()
  {
    var ma := MaOf(cfg, s);
    s.waiting && |ma| >= 2 && Abs(ma[|ma| - 1] - ma[|ma| - 2]) < cfg.flatThreshold
  }

  function ContextOf(cfg: Config, s: State, input: Input): Context
    requires cfg.Usable()
  {
    Context(input.now, input.bar, input.trigger, input.reliable, input.activeOrder, input.uncertain, MaOf(cfg, s),
            |s.closes|, Choppy(cfg, s))
  }

  /** The four checks in priority order; the first that speaks decides. */
  function Decide(cfg: Config, s: State, ctx: Context): Outcome {
    var eod := CheckEod(cfg, s, ctx);
    if eod.Some? then Outcome(s, eod.value) else
    var stop := CheckStopLoss(cfg, s, ctx);
    if stop.Some? then Outcome(s, stop.value) else
    var tracked := TrackProfit(cfg, s);
    var pullback := CheckPullback(cfg, tracked, ctx);
    if pullback.Some? then Outcome(tracked, pullback.value) else
    Outcome(tracked, CheckEntry(cfg, tracked, ctx))
  }

  function Evaluate(cfg: Config, s: State, input: Input): Outcome
    requires cfg.Usable()
  {
    var armed := ArmBreakout(cfg, s, input);
    Decide(cfg, armed, ContextOf(cfg, armed, input))
  }

  function Tail(s: seq<real>, keep: nat): seq<real> {
    if |s| > keep then s[|s| - keep..] else s
  }

  /** The state a closed bar leaves before it is evaluated. */
  function Absorb(cfg: Config, s: State, bar: Bar): State {
    s.(streak := NextStreak(s.streak, bar.Color()), closes := Tail(s.closes + [bar.close], cfg.MaxHistory()),
       lastPrice := Some(bar.close), lastBarStart := Some(bar.start))
  }

  predicate Tracks(s: State, bar: Bar) {
    bar.instrument == s.instrument && bar.contract == s.contract
  }

  /** A closed bar; a bar of another contract is refused by the caller's error path. */
  function OnBar(cfg: Config, s: State, bar: Bar, reliable: bool, activeOrder: bool, uncertain: bool): Outcome
    requires cfg.Usable()
  {
    Evaluate(cfg, Absorb(cfg, s, bar), Input(bar.end, Some(bar), BarClosed, reliable, activeOrder, uncertain))
  }

  function OnTrade(cfg: Config, s: State, price: real, at: int, activeOrder: bool, uncertain: bool): Outcome
    requires cfg.Usable()
  {
    Evaluate(cfg, s.(lastPrice := Some(price)), Input(at, None, TradePrice, true, activeOrder, uncertain))
  }

  function OnTick(cfg: Config, s: State, now: int, activeOrder: bool, uncertain: bool): Outcome
    requires cfg.Usable()
  {
    Evaluate(cfg, s, Input(now, None, ClockTick, true, activeOrder, uncertain))
  }

  predicate OpeningSide(s: State, side: Side) {
    s.side == Flat || (s.side == Long && side == Buy) || (s.side == Short && side == Sell)
  }

  /** Does the engine take this fill, or raise? */
  predicate FillAccepted(s: State, side: Side, quantity: int) {
    quantity > 0
    && if OpeningSide(s, side) then |s.lots| + quantity <= MAX_LOTS else s.closedQuantity + quantity <= |s.lots|
  }

  /** The peak carried over to the new basis, or dropped when it is no longer a gain. */
  function Rebase(s: State, peakPrice: real): State
    requires s.side != Flat && s.lots != []
  {
    var peak := Points(s.side, peakPrice, Mean(s.lots));
    if peak > 0.0 then s.(maxFavorable := Some(peak)) else s.(profitActivated := false, maxFavorable := None)
  }

  function Reset(s: State): State {
    s.(side := Flat, lots := [], closedQuantity := 0, activeBasis := None, profitActivated := false,
        maxFavorable := None)
  }

  function Opened(s: State, side: Side, price: real, quantity: nat, at: int): State
    requires quantity > 0
  {
    var direction := if s.side != Flat then s.side else if side == Buy then Long else Short;
    var lots := s.lots + seq(quantity, _ => LotFill(price, at));
    var grown := s.(side := direction, lots := lots, activeBasis := Some(Mean(lots)));
    var rebased := if s.lots != [] && s.maxFavorable.Some?
                   then Rebase(grown, PriceAt(s.side, Mean(s.lots), s.maxFavorable.value)) else grown;
    rebased.(waiting := false)
  }

  /** A confirmed fill. A closing fill that exceeds the held lots is counted before it is refused. */
  function OnFill(s: State, side: Side, price: real, quantity: int, at: int): State {
    if quantity <= 0 then s
    else if OpeningSide(s, side) then
      if |s.lots| + quantity > MAX_LOTS then s else Opened(s, side, price, quantity, at)
    else if s.closedQuantity + quantity == |s.lots| then Reset(s)
    else s.(closedQuantity := s.closedQuantity + quantity)
  }

  function ResetHistory(s: State): State {
    s.(closes := [], streak := NO_STREAK, waiting := false)
  }
}

/** The engine as the object the application holds: fields updated in place by its inputs. */
module Engine {
  import opened Domain
  import opened MovingAverage
  import opened EngineModel

  /** Red/black streak over closed bars. */
  class CandleStreakCounter {
    var color: Option<CandleColor>
    var length: nat

    function Value(): Streak
      reads this
    {
      Streak(color, length)
    }

    constructor ()
      ensures Value() == NO_STREAK
    {
      color, length := None, 0;
    }

    method OnBarClosed(bar: Bar)
      modifies this
      ensures Value() == NextStreak(old(Value()), bar.Color())
    {
      var c := bar.Color();
      if c == Doji {
        color, length := None, 0;
        return;
      }
      if color == Some(c) {
        length := length + 1;
      } else {
        color, length := Some(c), 1;
      }
    }
  }

  class StrategySignalEngine {
    const cfg: Config
    const instrument: Instrument
    const contract: string
    var closes: seq<real>
    var streak: CandleStreakCounter
    var lastPrice: Option<real>
    var lastBarStart: Option<int>
    var side: PositionSide
    var lots: seq<LotFill>
    var closedQuantity: int
    var activeBasis: Option<real>
    var profitActivated: bool
    var maxFavorable: Option<real>
    var waiting: bool

    /** The engine's value: every field, in the shape the model speaks about. */
    function Snapshot(): State
      reads this, streak
    {
      State(instrument, contract, closes, streak.Value(), lastPrice, lastBarStart, side, lots, closedQuantity,
            activeBasis, profitActivated, maxFavorable, waiting)
    }

    constructor (cfg: Config, instrument: Instrument, contract: string)
      requires cfg.Usable()
      ensures Snapshot() == Fresh(instrument, contract) && this.cfg == cfg
      ensures fresh(streak)
    {
      this.cfg, this.instrument, this.contract := cfg, instrument, contract;
      closes, lastPrice, lastBarStart, side, lots, closedQuantity := [], None, None, Flat, [], 0;
      activeBasis, profitActivated, maxFavorable, waiting := None, false, None, false;
      streak := new CandleStreakCounter();
    }

    /** Returns nothing for a bar of another instrument or contract, which the engine refuses. */
    method OnBarClosed(bar: Bar, reliable: bool, activeOrder: bool, uncertain: bool) returns (d: Option<Decision>)
      requires cfg.Usable()
      modifies this, streak
      ensures streak == old(streak)
      ensures !Tracks(old(Snapshot()), bar) ==> d == None && Snapshot() == old(Snapshot())
      ensures Tracks(old(Snapshot()), bar) ==>
                var o := OnBar(cfg, old(Snapshot()), bar, reliable, activeOrder, uncertain);
                Snapshot() == o.state && d == Some(o.decision)
    {
      if bar.instrument != instrument || bar.contract != contract {
        return None;
      }
      streak.OnBarClosed(bar);
      closes := closes + [bar.close];
      if |closes| > cfg.MaxHistory() {
        closes := closes[|closes| - cfg.MaxHistory()..];
      }
      lastPrice := Some(bar.close);
      lastBarStart := Some(bar.start);
      assert Snapshot() == Absorb(cfg, old(Snapshot()), bar);
      var decision := EvaluateNow(Input(bar.end, Some(bar), BarClosed, reliable, activeOrder, uncertain));
      d := Some(decision);
    }

    method OnTradePrice(price: real, at: int, activeOrder: bool, uncertain: bool) returns (d: Decision)
      requires cfg.Usable()
      modifies this
      ensures streak == old(streak)
      ensures var o := OnTrade(cfg, old(Snapshot()), price, at, activeOrder, uncertain);
              Snapshot() == o.state && d == o.decision
    {
      lastPrice := Some(price);
      assert Snapshot() == old(Snapshot()).(lastPrice := Some(price));
      d := EvaluateNow(Input(at, None, TradePrice, true, activeOrder, uncertain));
    }

    method OnClockTick(now: int, activeOrder: bool, uncertain: bool) returns (d: Decision)
      requires cfg.Usable()
      modifies this
      ensures streak == old(streak)
      ensures var o := OnTick(cfg, old(Snapshot()), now, activeOrder, uncertain);
              Snapshot() == o.state && d == o.decision
    {
      d := EvaluateNow(Input(now, None, ClockTick, true, activeOrder, uncertain));
    }

    method EvaluateNow(input: Input) returns (d: Decision)
      requires cfg.Usable()
      modifies this
      ensures streak == old(streak)
      ensures var o := Evaluate(cfg, old(Snapshot()), input); Snapshot() == o.state && d == o.decision
    {
      var ctx := Prepare(input);
      d := DecideNow(ctx);
    }

    /** The averages, the breakout wait and the evaluation context. */
    method Prepare(input: Input) returns (ctx: Context)
      requires cfg.Usable()
      modifies this
      ensures streak == old(streak)
      ensures Snapshot() == ArmBreakout(cfg, old(Snapshot()), input) && ctx == ContextOf(cfg, Snapshot(), input)
    {
      hide Series, SmallChanges;
      var ma := MovingAverageSeries(closes, cfg.maWindow, cfg.flatLookback + 2);
      ghost var before := Snapshot();
      assert ma == MaOf(cfg, before);
      var small := CountSmallChanges(ma, cfg.flatThreshold);
      if input.bar.Some? && input.reliable && small >= cfg.flatLookback + 1 {
        waiting := true;
      }
      ghost var after := ArmBreakout(cfg, before, input);
      assert Snapshot() == after && MaOf(cfg, after) == ma;
      var choppy := waiting && |ma| >= 2 && Abs(ma[|ma| - 1] - ma[|ma| - 2]) < cfg.flatThreshold;
      ctx := Context(input.now, input.bar, input.trigger, input.reliable, input.activeOrder, input.uncertain, ma,
                     |closes|, choppy);
    }

    method DecideNow(ctx: Context) returns (d: Decision)
      modifies this
      ensures streak == old(streak)
      ensures var o := Decide(cfg, old(Snapshot()), ctx); Snapshot() == o.state && d == o.decision
    {
      var eod := CheckEod(cfg, Snapshot(), ctx);
      if eod.Some? {
        return eod.value;
      }
      var stop := CheckStopLoss(cfg, Snapshot(), ctx);
      if stop.Some? {
        return stop.value;
      }
      var pullback := CheckProfitPullback(ctx);
      if pullback.Some? {
        return pullback.value;
      }
      d := CheckEntry(cfg, Snapshot(), ctx);
    }

    /** Follows the peak, then decides on the retracement from it. */
    method CheckProfitPullback(ctx: Context) returns (d: Option<Decision>)
      modifies this
      ensures streak == old(streak)
      ensures Snapshot() == TrackProfit(cfg, old(Snapshot())) && d == CheckPullback(cfg, Snapshot(), ctx)
    {
      if side == Flat || lots == [] || lastPrice.None? {
        return None;
      }
      var points := Points(side, lastPrice.value, Mean(lots));
      if !profitActivated {
        if points < cfg.activation {
          return None;
        }
        profitActivated := true;
        maxFavorable := Some(points);
      } else if maxFavorable.None? || points > maxFavorable.value {
        maxFavorable := Some(points);
      }
      d := CheckPullback(cfg, Snapshot(), ctx);
    }

    /** `ok` is false exactly where the engine raises. */
    method OnFillConfirmed(fillSide: Side, price: real, quantity: int, at: int) returns (ok: bool)
      modifies this
      ensures streak == old(streak)
      ensures ok == FillAccepted(old(Snapshot()), fillSide, quantity)
      ensures Snapshot() == OnFill(old(Snapshot()), fillSide, price, quantity, at)
    {
      if quantity <= 0 {
        return false;
      }
      if OpeningSide(Snapshot(), fillSide) {
        if |lots| + quantity > MAX_LOTS {
          return false;
        }
        Open(fillSide, price, quantity, at);
        return true;
      }
      closedQuantity := closedQuantity + quantity;
      if closedQuantity > |lots| {
        return false;
      }
      if closedQuantity == |lots| {
        side, lots, closedQuantity, activeBasis := Flat, [], 0, None;
        profitActivated, maxFavorable := false, None;
      }
      return true;
    }

    method Open(fillSide: Side, price: real, quantity: nat, at: int)
      requires quantity > 0
      modifies this
      ensures streak == old(streak)
      ensures Snapshot() == Opened(old(Snapshot()), fillSide, price, quantity, at)
    {
      var oldPeak := if lots != [] && maxFavorable.Some?
                     then Some(PriceAt(side, Mean(lots), maxFavorable.value)) else None;
      if side == Flat {
        side := if fillSide == Buy then Long else Short;
      }
      lots := lots + seq(quantity, _ => LotFill(price, at));
      var basis := Mean(lots);
      activeBasis := Some(basis);
      if oldPeak.Some? {
        var rebased := Points(side, oldPeak.value, basis);
        if rebased > 0.0 {
          maxFavorable := Some(rebased);
        } else {
          profitActivated, maxFavorable := false, None;
        }
      }
      waiting := false;
    }

    method ResetMarketHistory()
      modifies this
      ensures fresh(streak)
      ensures Snapshot() == ResetHistory(old(Snapshot()))
    {
      closes := [];
      streak := new CandleStreakCounter();
      waiting := false;
    }
  }
}
