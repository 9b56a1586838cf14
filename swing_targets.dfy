/** The swing target calculator of tools.py:77-104: find the swing low in the last 90
    sessions, the highest high strictly after it, and extend the swing by the Fibonacci
    ratios 1.618 and 2.618. */
module SwingTargets {

  /** One daily session of the one-year history, oldest first. Session dates are strictly
      increasing, so "after the low's date" is "at a later position". */
  datatype Bar = Bar(low: real, high: real)

  /** The two strings returned: both "N/A" for an empty history, "No Upward Swing"/"N/A"
      when there is no swing, or two prices. */
  datatype PriceTargets = NotAvailable | NoUpwardSwing | Targets(target1: real, target2: real)

  const LookbackSessions: nat := 90
  const FirstExtension: real := 1.618
  const SecondExtension: real := 2.618

  /** `hist.iloc[-90:]`: the whole history when it is shorter than 90 sessions. */
  function LastSessions(bars: seq<Bar>): (w: seq<Bar>)
    ensures |w| <= LookbackSessions && |w| <= |bars|
    ensures |bars| <= LookbackSessions ==> w == bars
    ensures |bars| > LookbackSessions ==> w == bars[|bars| - LookbackSessions..]
    ensures |bars| > 0 ==> |w| > 0
  {
    if |bars| <= LookbackSessions then bars else bars[|bars| - LookbackSessions..]
  }

  /** `Low.idxmin()`: the position of the first session with the lowest low. */
  function FirstMinLow(w: seq<Bar>): (k: nat)
    requires |w| > 0
    ensures k < |w|
    ensures forall j :: 0 <= j < |w| ==> w[k].low <= w[j].low
    ensures forall j :: 0 <= j < k ==> w[j].low > w[k].low
  {
    if |w| == 1 then 0
    else
      var k := FirstMinLow(w[1..]) + 1;
      if w[0].low <= w[k].low then 0 else k
  }

  /** `High.max()` of a non-empty run of sessions. */
  function MaxHigh(w: seq<Bar>): (m: real)
    requires |w| > 0
    ensures exists j :: 0 <= j < |w| && w[j].high == m
    ensures forall j :: 0 <= j < |w| ==> w[j].high <= m
  {
    if |w| == 1 then w[0].high
    else
      var rest := MaxHigh(w[1..]);
      assert forall j :: 1 <= j < |w| ==> w[j].high == w[1..][j - 1].high;
      if w[0].high >= rest then w[0].high else rest
  }

  /** The targets of a swing from `low` up to `high`, or no swing when the range is not positive. */
  function Extend(low: real, high: real): PriceTargets
  {
    var range := high - low;
    if range <= 0.0 then NoUpwardSwing
    else Targets(high + range * FirstExtension, high + range * SecondExtension)
  }

  /** `calculate_price_targets` on the one-year history. */
  function CalculatePriceTargets(history: seq<Bar>): (r: PriceTargets)
    ensures r.NotAvailable? <==> history == []
  {
    if history == [] then NotAvailable
    else
      var w := LastSessions(history);
      var lowAt := FirstMinLow(w);
      var afterLow := w[lowAt + 1..];
      if afterLow == [] then NoUpwardSwing
      else Extend(w[lowAt].low, MaxHigh(afterLow))
  }

  /** Targets exist only for a positive range; both lie above the high, in increasing
      order, one range apart. */
  lemma ExtendOrdered(low: real, high: real)
    ensures Extend(low, high).Targets? <==> low < high
    ensures var r := Extend(low, high);
            r.Targets? ==> high < r.target1 < r.target2 && r.target2 - r.target1 == high - low
  {
  }

  /** The swing, stated without the algorithm: session `i` is the first one with the lowest
      low of `w`, session `j` comes strictly after it, and no later session has a higher high. */
  ghost predicate IsSwing(w: seq<Bar>, i: int, j: int)
  {
    0 <= i < j < |w| &&
    (forall k :: 0 <= k < |w| ==> w[i].low <= w[k].low) &&
    (forall k :: 0 <= k < i ==> w[k].low > w[i].low) &&
    (forall k :: i < k < |w| ==> w[k].high <= w[j].high)
  }

  /** The first lowest low is the only session that is lowest with nothing as low before it. */
  lemma FirstMinLowUnique(w: seq<Bar>, i: int)
    requires 0 <= i < |w|
    requires forall k :: 0 <= k < |w| ==> w[i].low <= w[k].low
    requires forall k :: 0 <= k < i ==> w[k].low > w[i].low
    ensures FirstMinLow(w) == i
  {
    var k := FirstMinLow(w);
    assert w[k].low == w[i].low;
  }

  /** A high that no session exceeds is the maximum. */
  lemma MaxHighAt(w: seq<Bar>, j: int)
    requires 0 <= j < |w|
    requires forall k :: 0 <= k < |w| ==> w[k].high <= w[j].high
    ensures MaxHigh(w) == w[j].high
  {
    var m := MaxHigh(w);
    var k :| 0 <= k < |w| && w[k].high == m;
    assert w[j].high <= m;
  }

  /** Any swing of the last 90 sessions determines the result: the Fibonacci extensions of
      that swing, or "No Upward Swing" when its high does not exceed its low. */
  lemma SwingDeterminesTargets(history: seq<Bar>, i: int, j: int)
    requires IsSwing(LastSessions(history), i, j)
    ensures var w := LastSessions(history);
            CalculatePriceTargets(history) == Extend(w[i].low, w[j].high)
  {
    var w := LastSessions(history);
    FirstMinLowUnique(w, i);
    var afterLow := w[i + 1..];
    assert afterLow[j - i - 1] == w[j];
    forall k | 0 <= k < |afterLow|
      ensures afterLow[k].high <= afterLow[j - i - 1].high
    {
      assert afterLow[k] == w[i + 1 + k];
    }
    MaxHighAt(afterLow, j - i - 1);
  }

  /** When the lowest low of the window falls first on its last session there is nothing
      after it to rise to. */
  lemma LowOnLastSessionHasNoSwing(history: seq<Bar>)
    requires history != []
    requires var w := LastSessions(history);
             forall k :: 0 <= k < |w| - 1 ==> w[k].low > w[|w| - 1].low
    ensures CalculatePriceTargets(history) == NoUpwardSwing
  {
    var w := LastSessions(history);
    var lowAt := FirstMinLow(w);
    assert lowAt == |w| - 1;
  }

  /** Whenever there are targets, some swing of the window produced them; both lie above the
      swing high, the second above the first, and they are exactly one swing range apart. */
  lemma TargetsComeFromASwing(history: seq<Bar>)
    requires CalculatePriceTargets(history).Targets?
    ensures var w := LastSessions(history);
            var r := CalculatePriceTargets(history);
            exists i, j :: IsSwing(w, i, j) && w[i].low < w[j].high &&
              w[j].high < r.target1 < r.target2 &&
              r.target2 - r.target1 == w[j].high - w[i].low
  {
    var w := LastSessions(history);
    var i := FirstMinLow(w);
    var afterLow := w[i + 1..];
    var high := MaxHigh(afterLow);
    var k :| 0 <= k < |afterLow| && afterLow[k].high == high;
    var j := i + 1 + k;
    forall m | i < m < |w|
      ensures w[m].high <= w[j].high
    {
      assert w[m] == afterLow[m - i - 1];
    }
    assert IsSwing(w, i, j);
    SwingDeterminesTargets(history, i, j);
    ExtendOrdered(w[i].low, w[j].high);
    var r := CalculatePriceTargets(history);
    assert w[i].low < w[j].high && w[j].high < r.target1 < r.target2 &&
           r.target2 - r.target1 == w[j].high - w[i].low;
  }

  /** For a fixed swing high, a lower swing low (a wider range) moves both targets up. */
  lemma TargetsGrowWithRange(high: real, low: real, lowerLow: real)
    requires lowerLow < low < high
    ensures Extend(low, high).Targets? && Extend(lowerLow, high).Targets?
    ensures Extend(lowerLow, high).target1 > Extend(low, high).target1
    ensures Extend(lowerLow, high).target2 > Extend(low, high).target2
  {
  }

  /** Sessions older than the last 90 never influence the targets. */
  lemma StaleHistoryIgnored(older: seq<Bar>, recent: seq<Bar>)
    requires |recent| >= LookbackSessions
    ensures CalculatePriceTargets(older + recent) == CalculatePriceTargets(recent)
  {
    var all := older + recent;
    var w := recent[|recent| - LookbackSessions..];
    assert LastSessions(recent) == w;
    assert all[|all| - LookbackSessions..] == w;
    assert LastSessions(all) == w;
  }
}
