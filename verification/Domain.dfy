/** Values shared by every part of the trading system. Prices are exact (`real`) and
    timestamps are microseconds of Taipei wall-clock time, so a calendar date and a
    time of day are a quotient and a remainder. */
module Domain {
  datatype Option<+T> = None | Some(value: T)

  datatype Side = Buy | Sell

  /** The hard ceiling on lots, system-wide. */
  const MAX_LOTS := 2

  /** A signed net position. */
  type Net = n: int | -MAX_LOTS <= n <= MAX_LOTS

  const DAY: int := 86_400_000_000
  const HOUR: int := 3_600_000_000

  function DateOf(t: int): int {
    t / DAY
  }

  function TimeOfDay(t: int): int {
    t % DAY
  }

  function Opposite(side: Side): Side {
    if side == Buy then Sell else Buy
  }

  function Signed(side: Side, lots: int): int {
    if side == Buy then lots else -lots
  }

  function Magnitude(n: int): nat {
    if n < 0 then -n else n
  }

  function Abs(x: real): real {
    if x < 0.0 then -x else x
  }

  datatype Instrument = Mxf | Txf

  datatype CandleColor = Red | Black | Doji

  /** One closed 60-minute bar; `start` is its label. */
  datatype Bar = Bar(instrument: Instrument, contract: string, open: real, high: real, low: real, close: real,
                     volume: int, start: int, end: int)
  {
    /** The consistency every bar is checked for when it is built. */
    predicate Valid() {
      && volume >= 0
      && low <= open <= high
      && low <= close <= high
      && start <= end
    }

    function Color(): CandleColor {
      if close > open then Red else if close < open then Black else Doji
    }
  }

  datatype MarketSession = DaySession | NightSession
}
