/** The 20-bar moving average: its series, its slope, and the fact that a bounded
    history of closes is enough to compute both. */
module MovingAverage {
  import opened Domain

  datatype Slope = Up | Down | Level

  function Sum(s: seq<real>): real {
    if |s| == 0 then 0.0 else Sum(s[..|s| - 1]) + s[|s| - 1]
  }

  /** The mean of the last `window` closes; nothing while there are fewer. */
  function Sma(closes: seq<real>, window: nat): Option<real>
    requires window > 0
  {
    if |closes| < window then None
    else Some(Sum(closes[|closes| - window..]) / window as real)
  }

  function SeriesLength(samples: nat, window: nat, count: nat): nat {
    if samples < window then 0 else if count < samples - window + 1 then count else samples - window + 1
  }

  /** The last `count` averages, oldest first. */
  function Series(closes: seq<real>, window: nat, count: nat): (r: seq<real>)
    requires window > 0
    ensures |r| == SeriesLength(|closes|, window, count)
  {
    var n := SeriesLength(|closes|, window, count);
    seq(n, i requires 0 <= i < n => Sma(closes[..|closes| - (n - 1 - i)], window).value)
  }

  /** The loop of the source: newest first, then reversed. */
  method MovingAverageSeries(closes: seq<real>, window: nat, count: nat) returns (values: seq<real>)
    requires window > 0
    ensures values == Series(closes, window, count)
  {
    var newestFirst: seq<real> := [];
    var n := SeriesLength(|closes|, window, count);
    var k := 0;
    while k < count && |closes| - k >= window
      invariant 0 <= k <= n
      invariant |newestFirst| == k
      invariant forall i | 0 <= i < k :: newestFirst[i] == Sma(closes[..|closes| - i], window).value
    {
      newestFirst := newestFirst + [Sma(closes[..|closes| - k], window).value];
      k := k + 1;
    }
    values := Reverse(newestFirst);
    assert values == Series(closes, window, count);
  }

  method Reverse(s: seq<real>) returns (r: seq<real>)
    ensures |r| == |s| && forall i | 0 <= i < |s| :: r[i] == s[|s| - 1 - i]
  {
    r := [];
    for k := 0 to |s|
      invariant |r| == k && forall i | 0 <= i < k :: r[i] == s[k - 1 - i]
    {
      r := [s[k]] + r;
    }
  }

  function DetermineSlope(current: Option<real>, previous: Option<real>): Slope {
    if current.None? || previous.None? then Level
    else if current.value > previous.value then Up
    else if current.value < previous.value then Down
    else Level
  }

  function Newest(ma: seq<real>): Option<real> {
    if |ma| >= 1 then Some(ma[|ma| - 1]) else None
  }

  function SecondNewest(ma: seq<real>): Option<real> {
    if |ma| >= 2 then Some(ma[|ma| - 2]) else None
  }

  /** How many of the newest one-bar changes in a row stay under the threshold. */
  function SmallChanges(ma: seq<real>, threshold: real): nat {
    if |ma| < 2 || Abs(ma[|ma| - 1] - ma[|ma| - 2]) >= threshold then 0
    else 1 + SmallChanges(ma[..|ma| - 1], threshold)
  }

  method CountSmallChanges(ma: seq<real>, threshold: real) returns (streak: nat)
    ensures streak == SmallChanges(ma, threshold)
  {
    streak := 0;
    assert ma[..|ma|] == ma;
    while streak + 1 < |ma|
      invariant streak <= |ma|
      invariant SmallChanges(ma, threshold) == streak + SmallChanges(ma[..|ma| - streak], threshold)
    {
      var newest := |ma| - 1 - streak;
      if Abs(ma[newest] - ma[newest - 1]) >= threshold {
        return;
      }
      assert ma[..|ma| - streak][..newest] == ma[..newest];
      streak := streak + 1;
    }
  }

  // ---- what the averages mean ----

  lemma {:induction false} SumFromFront(s: seq<real>)
    requires |s| > 0
    ensures Sum(s) == s[0] + Sum(s[1..])
  {
    if |s| == 1 {
      assert s[..0] == [] && s[1..] == [];
    } else {
      SumFromFront(s[..|s| - 1]);
      assert s[..|s| - 1][1..] == s[1..][..|s| - 2];
    }
  }

  /** Only the last `keep` closes matter as soon as `keep` covers the whole series. */
  lemma TruncationKeepsSeries(closes: seq<real>, window: nat, count: nat, keep: nat)
    requires window > 0 && keep >= window + count - 1 && keep <= |closes|
    ensures Series(closes[|closes| - keep..], window, count) == Series(closes, window, count)
  {
    var cut := closes[|closes| - keep..];
    var a, b := Series(cut, window, count), Series(closes, window, count);
    assert |a| == |b| == if keep < window then 0 else count;
    forall i | 0 <= i < |a| ensures a[i] == b[i] {
      var back := |a| - 1 - i;
      var x, y := cut[..keep - back], closes[..|closes| - back];
      assert x[|x| - window..] == y[|y| - window..];
      assert a[i] == Sma(x, window).value && b[i] == Sma(y, window).value;
    }
  }

  /** One more close moves the average by the newest close less the one that leaves. */
  lemma SmaStep(closes: seq<real>, window: nat)
    requires window > 0 && |closes| > window
    ensures Sma(closes, window).value - Sma(closes[..|closes| - 1], window).value
         == (closes[|closes| - 1] - closes[|closes| - 1 - window]) / window as real
  {
    var n := |closes|;
    var now, before := closes[n - window..], closes[..n - 1][n - 1 - window..];
    var shared := closes[n - window..n - 1];
    assert now[..window - 1] == shared;
    SumFromFront(before);
    assert before[1..] == shared;
    var w := window as real;
    var x, y := Sum(now), Sum(before);
    assert x - y == closes[n - 1] - closes[n - 1 - window];
    assert x / w - y / w == (x - y) / w;
  }

  /** The slope is the sign of the newest close against the close `window` bars earlier. */
  lemma SlopeIsWindowComparison(closes: seq<real>, window: nat, count: nat)
    requires window > 0 && count >= 2
    ensures var ma := Series(closes, window, count);
            var slope := DetermineSlope(Newest(ma), SecondNewest(ma));
            && (slope == Up <==> |closes| > window && closes[|closes| - 1] > closes[|closes| - 1 - window])
            && (slope == Down <==> |closes| > window && closes[|closes| - 1] < closes[|closes| - 1 - window])
  {
    var ma := Series(closes, window, count);
    if |closes| > window {
      assert closes[..|closes|] == closes;
      assert ma[|ma| - 1] == Sma(closes, window).value;
      assert ma[|ma| - 2] == Sma(closes[..|closes| - 1], window).value;
      SmaStep(closes, window);
      var delta := closes[|closes| - 1] - closes[|closes| - 1 - window];
      var w := window as real;
      assert delta > 0.0 <==> delta / w > 0.0;
      assert delta < 0.0 <==> delta / w < 0.0;
    } else {
      assert |ma| < 2;
    }
  }
}
