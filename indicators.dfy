/** The technical indicators computed from a 60-day price/volume window
    (tools.py:29-35, analytics.py:45-57): simple moving averages of the close and the
    trailing mean of the volume. RSI is produced by a library and enters as a given number. */
module Indicators {

  /** One ticker's daily history, oldest session first, with the last RSI reading. */
  datatype PriceHistory = PriceHistory(closes: seq<real>, volumes: seq<real>, rsi: real)

  /** Shortest non-empty history for which every indicator is a number: 20 closes for SMA20
      (and 16 volumes for the 15-session mean before the last session). */
  const MinSessions: nat := 20

  /** Closes and volumes come from the same table, and a non-empty table is long enough
      for every indicator. */
  predicate Usable(h: PriceHistory)
  {
    |h.closes| == |h.volumes| && (|h.closes| == 0 || |h.closes| >= MinSessions)
  }

  type History = h: PriceHistory | Usable(h) witness PriceHistory([], [], 0.0)

  function Sum(s: seq<real>): real
  {
    if s == [] then 0.0 else Sum(s[..|s| - 1]) + s[|s| - 1]
  }

  /** pandas `Series.mean()` of a non-empty series. */
  function Mean(s: seq<real>): real
    requires |s| > 0
  {
    Sum(s) / (|s| as real)
  }

  /** Last value of `rolling(window=n).mean()`: the mean of the last `n` closes. */
  function Sma(closes: seq<real>, n: nat): real
    requires 0 < n <= |closes|
  {
    Mean(closes[|closes| - n..])
  }

  /** `SMA_5 > SMA_20` on the last session. */
  predicate TrendUp(closes: seq<real>)
    requires |closes| >= MinSessions
  {
    Sma(closes, 5) > Sma(closes, 20)
  }

  /** `rsi < 70`. */
  predicate NotOverbought(rsi: real)
  {
    rsi < 70.0
  }

  /** `Volume.iloc[-16:-1].mean()`: the 15 sessions before the last one. */
  function PriorVolumeMean(volumes: seq<real>): real
    requires |volumes| >= 16
  {
    Mean(volumes[|volumes| - 16..|volumes| - 1])
  }

  /** `current_volume > 3 * avg_volume_15d`. */
  predicate VolumeBreakout(volumes: seq<real>)
    requires |volumes| >= 16
  {
    volumes[|volumes| - 1] > 3.0 * PriorVolumeMean(volumes)
  }

  lemma {:induction false} SumConcat(a: seq<real>, b: seq<real>)
    ensures Sum(a + b) == Sum(a) + Sum(b)
  {
    if b != [] {
      var init := b[..|b| - 1];
      SumConcat(a, init);
      assert (a + b)[..|a + b| - 1] == a + init;
    } else {
      assert a + b == a;
    }
  }

  /** The 20-session average contains the 5-session one, so the trend test is the same as
      comparing the last 5 closes with the 15 closes before them. */
  lemma TrendUpAgainstEarlierCloses(closes: seq<real>)
    requires |closes| >= MinSessions
    ensures TrendUp(closes) <==> Sma(closes, 5) > Mean(closes[|closes| - 20..|closes| - 5])
  {
    var n := |closes|;
    assert closes[n - 20..] == closes[n - 20..n - 5] + closes[n - 5..];
    SumConcat(closes[n - 20..n - 5], closes[n - 5..]);
  }

  /** The breakout test is strict and looks only at the last volume against the sessions
      before it: a last volume of exactly three times the prior mean fails, any larger last
      volume passes, whatever the prior volumes are. */
  lemma VolumeBreakoutThreshold(volumes: seq<real>, last: real)
    requires |volumes| >= 16
    ensures var raised := volumes[..|volumes| - 1] + [last];
            |raised| == |volumes| &&
            PriorVolumeMean(raised) == PriorVolumeMean(volumes) &&
            (VolumeBreakout(raised) <==> last > 3.0 * PriorVolumeMean(volumes))
  {
    var n := |volumes|;
    var raised := volumes[..n - 1] + [last];
    assert raised[n - 16..n - 1] == volumes[n - 16..n - 1];
  }
}
