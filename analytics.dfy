/** The funnel report of analytics.py: the primary (fundamental) and secondary (technical)
    filters as short-circuiting checks that bump counters of a shared record, and the main
    loop that counts the tickers screened and collects those passing every filter. */
module Analytics {
  import opened Wrappers
  import opened Seqs
  import opened Text
  import opened Indicators
  import opened Tools

  /** Rule 1: `info.get('marketCap', 0)` lies in the band; a `None` market cap makes the
      comparison raise. */
  predicate MarketCapRule(info: Info)
  {
    var cap := Get(info.marketCap, 0.0);
    cap.Some? && InCapBand(cap.value)
  }

  /** Rule 2: `info.get('profitMargins')` is present and above 5%. */
  predicate ProfitMarginRule(info: Info)
  {
    ProfitableMargin(GetOrNone(info.profitMargins))
  }

  /** Rule 3: financial or bank category, or a D/E below 100; a `None` category makes
      `.lower()` raise. */
  predicate LeverageRule(info: Info)
  {
    var category := Get(info.category, "");
    category.Some? && PassesLeverage(ToLower(category.value), GetOrNone(info.debtToEquity))
  }

  /** How many primary counters `apply_primary_filters` bumps before it returns: the rules
      run in order and stop at the first failure (or at the failed request for `info`). */
  function PrimaryStagesPassed(info: Option<Info>): (n: nat)
    ensures n <= 3
    ensures n >= 1 <==> info.Some? && MarketCapRule(info.value)
    ensures n >= 2 <==> info.Some? && MarketCapRule(info.value) && ProfitMarginRule(info.value)
    ensures n == 3 <==>
      info.Some? && MarketCapRule(info.value) && ProfitMarginRule(info.value) && LeverageRule(info.value)
  {
    match info
    case None => 0
    case Some(i) =>
      if !MarketCapRule(i) then 0
      else if !ProfitMarginRule(i) then 1
      else if !LeverageRule(i) then 2
      else 3
  }

  /** How many secondary counters `apply_secondary_filters` bumps: trend, then momentum,
      then volume, stopping at the first failure. An empty history raises at once. */
  function SecondaryStagesPassed(h: History): (n: nat)
    ensures n <= 3
    ensures n >= 1 <==> |h.closes| > 0 && TrendUp(h.closes)
    ensures n >= 2 <==> |h.closes| > 0 && TrendUp(h.closes) && NotOverbought(h.rsi)
    ensures n == 3 <==>
      |h.closes| > 0 && TrendUp(h.closes) && NotOverbought(h.rsi) && VolumeBreakout(h.volumes)
  {
    if |h.closes| == 0 || !TrendUp(h.closes) then 0
    else if !NotOverbought(h.rsi) then 1
    else if !VolumeBreakout(h.volumes) then 2
    else 3
  }

  /** The six counters of the funnel, in the order the filters bump them. */
  datatype Stage = MarketCapStage | ProfitMarginStage | DebtToEquityStage | SmaStage | RsiStage | VolumeStage

  function Rank(stage: Stage): nat
  {
    match stage
    case MarketCapStage => 1
    case ProfitMarginStage => 2
    case DebtToEquityStage => 3
    case SmaStage => 4
    case RsiStage => 5
    case VolumeStage => 6
  }

  /** The main loop bumps the counter of `stage` for a ticker with this data: the secondary
      filters run only after the primary ones all passed and the history is not empty. */
  predicate Reaches(data: MarketData, stage: Stage)
  {
    var primary := PrimaryStagesPassed(data.info);
    if Rank(stage) <= 3 then primary >= Rank(stage)
    else primary == 3 && SecondaryStagesPassed(data.history) >= Rank(stage) - 3
  }

  /** The tickers of `unique` whose counter for `stage` the loop bumps, in loop order. */
  function Passing(unique: seq<string>, fetch: string -> MarketData, stage: Stage): seq<string>
  {
    Filter(unique, (t: string) => Reaches(fetch(t), stage))
  }

  /** A later stage of the funnel never counts more tickers than an earlier one. */
  lemma PassingNested(unique: seq<string>, fetch: string -> MarketData, earlier: Stage, later: Stage)
    requires Rank(earlier) <= Rank(later)
    ensures |Passing(unique, fetch, later)| <= |Passing(unique, fetch, earlier)|
  {
    FilterLengthMonotone(unique, (t: string) => Reaches(fetch(t), earlier), (t: string) => Reaches(fetch(t), later));
  }

  /** The funnel applies the same rules as `get_full_analysis`: for a ticker with a
      history, the primary filters all pass exactly when its analysis exists and passes
      market cap, margin and leverage, and it is qualified exactly when its analysis is
      an action signal of the screener. */
  lemma FunnelAgreesWithAnalysis(ticker: string, data: MarketData)
    requires |data.history.closes| > 0
    ensures var a := FullAnalysis(ticker, data);
            (PrimaryStagesPassed(data.info) == 3 <==>
              a.Some? && a.value.passesMc && a.value.passesPm && a.value.passesDe)
    ensures var a := FullAnalysis(ticker, data);
            (Reaches(data, VolumeStage) <==>
              a.Some? && IsWatchlistCandidate(a.value) && a.value.passesVolume)
  {
    if data.info.Some? {
      var info := data.info.value;
      if info.category.Missing? {
        assert ToLower("") == "";
      }
    }
  }

  /** The eight counters of the `analytics` dictionary. */
  datatype Counts = Counts(total: nat, primary: nat, marketCap: nat, profitMargin: nat, de: nat,
                           sma: nat, rsi: nat, volume: nat)

  /** The counters after the primary filters passed `p` stages. */
  function AfterPrimary(c: Counts, p: nat): Counts
  {
    c.(marketCap := c.marketCap + (if p >= 1 then 1 else 0),
       profitMargin := c.profitMargin + (if p >= 2 then 1 else 0),
       de := c.de + (if p == 3 then 1 else 0))
  }

  /** The counters after the secondary filters passed `s` stages. */
  function AfterSecondary(c: Counts, s: nat): Counts
  {
    c.(sma := c.sma + (if s >= 1 then 1 else 0),
       rsi := c.rsi + (if s >= 2 then 1 else 0),
       volume := c.volume + (if s == 3 then 1 else 0))
  }

  /** The counters after one more ticker of the main loop, whose primary filters passed
      `p` stages and whose secondary filters, run only when all primary ones passed,
      passed `s`. */
  function Bump(c: Counts, p: nat, s: nat): Counts
  {
    var screened := AfterPrimary(c.(total := c.total + 1), p);
    if p == 3 then AfterSecondary(screened.(primary := screened.primary + 1), s) else screened
  }

  /** The `analytics` dictionary. */
  class FunnelAnalytics {
    var totalScreened: nat
    var primaryPassed: nat
    var marketCapPasses: nat
    var profitMarginPasses: nat
    var dePasses: nat
    var smaPasses: nat
    var rsiPasses: nat
    var volumePasses: nat

    /** A counter is bumped only in a call that bumped the counters before it. */
    ghost predicate Nested()
      reads this
    {
      marketCapPasses >= profitMarginPasses >= dePasses && smaPasses >= rsiPasses >= volumePasses
    }

    /** The counters as a value. */
    ghost function Snapshot(): Counts
      reads this
    {
      Counts(totalScreened, primaryPassed, marketCapPasses, profitMarginPasses, dePasses,
             smaPasses, rsiPasses, volumePasses)
    }

    constructor ()
      ensures Nested()
      ensures Snapshot() == Counts(0, 0, 0, 0, 0, 0, 0, 0)
    {
      totalScreened, primaryPassed := 0, 0;
      marketCapPasses, profitMarginPasses, dePasses := 0, 0, 0;
      smaPasses, rsiPasses, volumePasses := 0, 0, 0;
    }

    /** `apply_primary_filters` on the fetched `info` (`None` when the request raised). Each
        rule that passes bumps its counter by one; the first failure, or an exception,
        returns False and leaves the counters already bumped as they are. */
    method ApplyPrimaryFilters(info: Option<Info>) returns (passed: bool)
      requires Nested()
      modifies this
      ensures Nested()
      ensures passed <==> PrimaryStagesPassed(info) == 3
      ensures Snapshot() == AfterPrimary(old(Snapshot()), PrimaryStagesPassed(info))
    {
      if info.None? {
        return false;
      }
      var i := info.value;
      var marketCap := Get(i.marketCap, 0.0);
      if marketCap.None? {
        return false;
      }
      if MinMarketCap <= marketCap.value <= MaxMarketCap {
        marketCapPasses := marketCapPasses + 1;
      } else {
        return false;
      }
      var profitMargin := GetOrNone(i.profitMargins);
      if profitMargin.Some? && profitMargin.value > MinProfitMargin {
        profitMarginPasses := profitMarginPasses + 1;
      } else {
        return false;
      }
      var category := Get(i.category, "");
      if category.None? {
        return false;
      }
      var lowered := ToLower(category.value);
      if Contains(lowered, "financial") || Contains(lowered, "bank") {
        dePasses := dePasses + 1;
      } else {
        var debtToEquity := GetOrNone(i.debtToEquity);
        if debtToEquity.Some? && debtToEquity.value < MaxDebtToEquity {
          dePasses := dePasses + 1;
        } else {
          return false;
        }
      }
      return true;
    }

    /** `apply_secondary_filters` on the 60-day history: trend, momentum, volume, each
        bumping its counter when it passes, the first failure returning False. */
    method ApplySecondaryFilters(h: History) returns (passed: bool)
      requires Nested()
      modifies this
      ensures Nested()
      ensures passed <==> SecondaryStagesPassed(h) == 3
      ensures Snapshot() == AfterSecondary(old(Snapshot()), SecondaryStagesPassed(h))
    {
      if |h.closes| == 0 {
        return false;
      }
      if Sma(h.closes, 5) > Sma(h.closes, 20) {
        smaPasses := smaPasses + 1;
      } else {
        return false;
      }
      if h.rsi < 70.0 {
        rsiPasses := rsiPasses + 1;
      } else {
        return false;
      }
      var avgVolume15d := PriorVolumeMean(h.volumes);
      var currentVolume := h.volumes[|h.volumes| - 1];
      if currentVolume > 3.0 * avgVolume15d {
        volumePasses := volumePasses + 1;
      } else {
        return false;
      }
      return true;
    }
  }

  /** The counters after the main loop has screened `unique`, in order, from all zeros. */
  function Tally(unique: seq<string>, fetch: string -> MarketData): Counts
  {
    if unique == [] then Counts(0, 0, 0, 0, 0, 0, 0, 0)
    else
      var data := fetch(unique[|unique| - 1]);
      Bump(Tally(unique[..|unique| - 1], fetch), PrimaryStagesPassed(data.info), SecondaryStagesPassed(data.history))
  }

  /** Screening one more ticker extends the list of each stage exactly when the ticker
      reaches that stage. */
  lemma PassingSnoc(unique: seq<string>, fetch: string -> MarketData, stage: Stage)
    requires unique != []
    ensures var last := unique[|unique| - 1];
            Passing(unique, fetch, stage) ==
              Passing(unique[..|unique| - 1], fetch, stage) + (if Reaches(fetch(last), stage) then [last] else [])
  {
    var n := |unique| - 1;
    assert unique == unique[..n] + [unique[n]];
    FilterSnoc(unique[..n], unique[n], (t: string) => Reaches(fetch(t), stage));
  }

  /** Every counter the loop keeps is the number of tickers that reach its stage, and
      `total_screened` is the number of tickers screened. */
  lemma {:induction false} TallyCountsPassing(unique: seq<string>, fetch: string -> MarketData)
    ensures var c := Tally(unique, fetch);
            c.total == |unique| &&
            c.marketCap == |Passing(unique, fetch, MarketCapStage)| &&
            c.profitMargin == |Passing(unique, fetch, ProfitMarginStage)| &&
            c.de == |Passing(unique, fetch, DebtToEquityStage)| &&
            c.primary == c.de &&
            c.sma == |Passing(unique, fetch, SmaStage)| &&
            c.rsi == |Passing(unique, fetch, RsiStage)| &&
            c.volume == |Passing(unique, fetch, VolumeStage)|
  {
    if unique != [] {
      TallyCountsPassing(unique[..|unique| - 1], fetch);
      forall stage | true
        ensures var last := unique[|unique| - 1];
                Passing(unique, fetch, stage) ==
                  Passing(unique[..|unique| - 1], fetch, stage) + (if Reaches(fetch(last), stage) then [last] else [])
      {
        PassingSnoc(unique, fetch, stage);
      }
    }
  }

  /** An enumeration of the distinct tickers of a universe has one position per ticker. */
  lemma UniqueCount(stockUniverse: seq<string>, unique: seq<string>)
    requires forall t :: t in unique <==> t in stockUniverse
    requires forall i, j :: 0 <= i < j < |unique| ==> unique[i] != unique[j]
    ensures |unique| == |set t | t in stockUniverse|
  {
    DistinctCardinality(unique);
    assert (set t | t in unique) == (set t | t in stockUniverse);
  }

  /** One pass of the main loop's body for `ticker`: count it as screened, run the primary
      filters, then (when they all passed and the history is not empty) the secondary ones.
      Returns whether the ticker is appended to `qualified_stocks`. */
  method ScreenTicker(analytics: FunnelAnalytics, ticker: string, fetch: string -> MarketData)
    returns (qualified: bool)
    requires analytics.Nested()
    modifies analytics
    ensures analytics.Nested()
    ensures var data := fetch(ticker);
            analytics.Snapshot() ==
              Bump(old(analytics.Snapshot()), PrimaryStagesPassed(data.info), SecondaryStagesPassed(data.history))
    ensures qualified <==> Reaches(fetch(ticker), VolumeStage)
  {
    analytics.totalScreened := analytics.totalScreened + 1;
    var passed := analytics.ApplyPrimaryFilters(fetch(ticker).info);
    if !passed {
      return false;
    }
    analytics.primaryPassed := analytics.primaryPassed + 1;
    var histData := fetch(ticker).history;
    if |histData.closes| == 0 {
      return false;
    }
    qualified := analytics.ApplySecondaryFilters(histData);
  }

  /** The main block: `unique` is `list(set(stock_universe))`, in whatever order the set
      yields. Every counter ends up equal to the number of tickers that reach its stage. */
  method RunFunnel(stockUniverse: seq<string>, unique: seq<string>, fetch: string -> MarketData)
    returns (analytics: FunnelAnalytics, qualifiedStocks: seq<string>)
    requires forall t :: t in unique <==> t in stockUniverse
    requires forall i, j :: 0 <= i < j < |unique| ==> unique[i] != unique[j]
    ensures fresh(analytics) && analytics.Nested()
    ensures analytics.totalScreened == |set t | t in stockUniverse|
    ensures analytics.marketCapPasses == |Passing(unique, fetch, MarketCapStage)|
    ensures analytics.profitMarginPasses == |Passing(unique, fetch, ProfitMarginStage)|
    ensures analytics.dePasses == |Passing(unique, fetch, DebtToEquityStage)|
    ensures analytics.smaPasses == |Passing(unique, fetch, SmaStage)|
    ensures analytics.rsiPasses == |Passing(unique, fetch, RsiStage)|
    ensures analytics.volumePasses == |Passing(unique, fetch, VolumeStage)|
    ensures analytics.primaryPassed == analytics.dePasses
    ensures analytics.smaPasses <= analytics.primaryPassed
    ensures qualifiedStocks == Passing(unique, fetch, VolumeStage)
    ensures |qualifiedStocks| == analytics.volumePasses
  {
    analytics := new FunnelAnalytics();
    qualifiedStocks := [];
    for i := 0 to |unique|
      invariant analytics.Nested()
      invariant analytics.Snapshot() == Tally(unique[..i], fetch)
      invariant qualifiedStocks == Passing(unique[..i], fetch, VolumeStage)
    {
      var ticker := unique[i];
      assert unique[..i + 1][..i] == unique[..i];
      PassingSnoc(unique[..i + 1], fetch, VolumeStage);
      var passed := ScreenTicker(analytics, ticker, fetch);
      if passed {
        qualifiedStocks := qualifiedStocks + [ticker];
      }
    }
    assert unique[..|unique|] == unique;
    TallyCountsPassing(unique, fetch);
    PassingNested(unique, fetch, DebtToEquityStage, SmaStage);
    UniqueCount(stockUniverse, unique);
  }
}
