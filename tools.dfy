/** One ticker's analysis and the watchlist built from it (tools.py:14-62). The requests to
    the market-data provider are not modelled: their answers come in as `MarketData`. */
module Tools {
  import opened Wrappers
  import opened Seqs
  import opened Text
  import opened Indicators

  /** An entry of yfinance's `info` dictionary: the key may be absent, hold `None`, or hold a value. */
  datatype Field<T> = Missing | Null | Present(value: T)

  /** `info.get(key, default)`: the default for an absent key, `None` for a key holding `None`. */
  function Get<T>(f: Field<T>, default: T): (r: Option<T>)
    ensures r.None? <==> f.Null?
    ensures f.Missing? ==> r == Some(default)
    ensures f.Present? ==> r == Some(f.value)
  {
    match f
    case Missing => Some(default)
    case Null => None
    case Present(v) => Some(v)
  }

  /** `info.get(key)` without a default. */
  function GetOrNone<T>(f: Field<T>): (r: Option<T>)
    ensures r.Some? <==> f.Present?
    ensures f.Present? ==> r == Some(f.value)
  {
    match f
    case Present(v) => Some(v)
    case _ => None
  }

  /** The part of `Ticker.info` the filters read. */
  datatype Info = Info(
    longName: Option<string>,
    marketCap: Field<real>,
    profitMargins: Field<real>,
    debtToEquity: Field<real>,
    category: Field<string>)

  /** What the provider returns for one ticker: its fundamentals (`None` when the request
      raised) and its recent daily history (empty when nothing came back). */
  datatype MarketData = MarketData(info: Option<Info>, history: History)

  /** The dictionary `get_full_analysis` returns. */
  datatype Analysis = Analysis(
    ticker: string,
    name: string,
    marketCap: real,
    profitMargin: Option<real>,
    sma20: real,
    passesMc: bool,
    passesPm: bool,
    passesDe: bool,
    passesSma: bool,
    passesRsi: bool,
    passesVolume: bool)

  const MinMarketCap: real := 10_000_000_000.0
  const MaxMarketCap: real := 200_000_000_000.0
  const MinProfitMargin: real := 0.05
  const MaxDebtToEquity: real := 100.0

  /** `10e9 <= market_cap <= 200e9`, inclusive at both ends. */
  predicate InCapBand(cap: real)
  {
    MinMarketCap <= cap <= MaxMarketCap
  }

  /** `profit_margin is not None and profit_margin > 0.05`. */
  predicate ProfitableMargin(margin: Option<real>)
  {
    margin.Some? && margin.value > MinProfitMargin
  }

  /** `'financial' in category or 'bank' in category`, on the lower-cased category. */
  predicate IsFinancialCategory(lowered: string)
  {
    Contains(lowered, "financial") || Contains(lowered, "bank")
  }

  /** The leverage rule: financial and bank categories are exempt, any other needs a D/E
      below 100 (percent of equity). */
  predicate PassesLeverage(lowered: string, debtToEquity: Option<real>)
  {
    IsFinancialCategory(lowered) || (debtToEquity.Some? && debtToEquity.value < MaxDebtToEquity)
  }

  /** `get_full_analysis`: `None` when the info request raised, when the history is empty,
      or when a `None` market cap or category makes a comparison or `.lower()` raise;
      otherwise the six verdicts. */
  function FullAnalysis(ticker: string, data: MarketData): (r: Option<Analysis>)
    ensures r.None? <==>
      data.info.None? || |data.history.closes| == 0 ||
      data.info.value.marketCap.Null? || data.info.value.category.Null?
    ensures r.Some? ==> r.value.ticker == ticker
    // A missing market cap counts as 0 and fails the band.
    ensures r.Some? ==>
      (r.value.passesMc <==>
        data.info.value.marketCap.Present? && InCapBand(data.info.value.marketCap.value))
    // A missing margin counts as 0 and a `None` one is rejected: both fail.
    ensures r.Some? ==>
      (r.value.passesPm <==>
        data.info.value.profitMargins.Present? && data.info.value.profitMargins.value > MinProfitMargin)
    // A missing category is the empty string, which is not financial.
    ensures r.Some? ==>
      (r.value.passesDe <==>
        (data.info.value.category.Present? && IsFinancialCategory(ToLower(data.info.value.category.value))) ||
        (data.info.value.debtToEquity.Present? && data.info.value.debtToEquity.value < MaxDebtToEquity))
    // `name` is `longName` or else the ticker; `sma_20_value`, `market_cap` and `profit_margin`
    // are the SMA20 and the two `get` results.
    ensures r.Some? ==>
      r.value.name == (if data.info.value.longName.Some? then data.info.value.longName.value else ticker) &&
      r.value.sma20 == Sma(data.history.closes, 20) &&
      (data.info.value.marketCap.Present? ==> r.value.marketCap == data.info.value.marketCap.value) &&
      (data.info.value.marketCap.Missing? ==> r.value.marketCap == 0.0) &&
      r.value.profitMargin == Get(data.info.value.profitMargins, 0.0)
    ensures r.Some? ==>
      r.value.passesSma == TrendUp(data.history.closes) &&
      r.value.passesRsi == NotOverbought(data.history.rsi) &&
      r.value.passesVolume == VolumeBreakout(data.history.volumes)
  {
    match data.info
    case None => None
    case Some(info) =>
      var h := data.history;
      if |h.closes| == 0 then None
      else
        var cap := Get(info.marketCap, 0.0);
        var margin := Get(info.profitMargins, 0.0);
        var debtToEquity := GetOrNone(info.debtToEquity);
        var category := Get(info.category, "");
        if cap.None? || category.None? then None
        else
          var lowered := ToLower(category.value);
          assert info.category.Missing? ==> !IsFinancialCategory(lowered);
          var name := match info.longName case Some(n) => n case None => ticker;
          Some(Analysis(ticker, name, cap.value, margin, Sma(h.closes, 20),
            InCapBand(cap.value), ProfitableMargin(margin), PassesLeverage(lowered, debtToEquity),
            TrendUp(h.closes), NotOverbought(h.rsi), VolumeBreakout(h.volumes)))
  }

  /** The five conditions of the watchlist: every verdict except the volume breakout. */
  predicate IsWatchlistCandidate(a: Analysis)
  {
    a.passesMc && a.passesPm && a.passesDe && a.passesSma && a.passesRsi
  }

  /** The ticker has an analysis and that analysis is a watchlist candidate. */
  predicate QualifiesForWatchlist(ticker: string, fetch: string -> MarketData)
  {
    var a := FullAnalysis(ticker, fetch(ticker));
    a.Some? && IsWatchlistCandidate(a.value)
  }

  /** The tickers of `universe` that qualify, in universe order. */
  function WatchlistTickers(universe: seq<string>, fetch: string -> MarketData): seq<string>
  {
    Filter(universe, (t: string) => QualifiesForWatchlist(t, fetch))
  }

  /** `get_watchlist_candidates`. */
  method GetWatchlistCandidates(universe: seq<string>, fetch: string -> MarketData)
    returns (watchlist: seq<string>)
    ensures watchlist == WatchlistTickers(universe, fetch)
  {
    watchlist := [];
    for i := 0 to |universe|
      invariant watchlist == WatchlistTickers(universe[..i], fetch)
    {
      var ticker := universe[i];
      var analysis := FullAnalysis(ticker, fetch(ticker));
      assert universe[..i + 1] == universe[..i] + [ticker];
      FilterSnoc(universe[..i], ticker, (t: string) => QualifiesForWatchlist(t, fetch));
      if analysis.Some? && IsWatchlistCandidate(analysis.value) {
        watchlist := watchlist + [ticker];
      }
    }
    assert universe[..|universe|] == universe;
  }

  /** A ticker is on the watchlist exactly when it is in the universe, its analysis exists,
      and it passes market cap, margin, leverage, trend and momentum; volume plays no part. */
  lemma WatchlistTickersMember(universe: seq<string>, fetch: string -> MarketData, ticker: string)
    ensures ticker in WatchlistTickers(universe, fetch) <==>
      ticker in universe && FullAnalysis(ticker, fetch(ticker)).Some? &&
      IsWatchlistCandidate(FullAnalysis(ticker, fetch(ticker)).value)
  {
    FilterMember(universe, (t: string) => QualifiesForWatchlist(t, fetch), ticker);
  }

  /** A bank or financial category passes the leverage rule whatever its D/E: replacing the
      D/E entry leaves the whole analysis unchanged. */
  lemma FinancialCategoryIgnoresDebt(ticker: string, info: Info, history: History, debtToEquity: Field<real>)
    requires info.category.Present? && IsFinancialCategory(ToLower(info.category.value))
    ensures var r := FullAnalysis(ticker, MarketData(Some(info), history));
            r.Some? ==> r.value.passesDe
    ensures FullAnalysis(ticker, MarketData(Some(info.(debtToEquity := debtToEquity)), history)) ==
            FullAnalysis(ticker, MarketData(Some(info), history))
  {
  }

  /** A category reading "Private Banks" is exempt from the leverage rule: it passes
      whatever the D/E, present or not. */
  lemma PrivateBanksAreFinancial(category: string, debtToEquity: Option<real>)
    requires category == "Private Banks"
    ensures IsFinancialCategory(ToLower(category))
    ensures PassesLeverage(ToLower(category), debtToEquity)
  {
    var lowered := ToLower(category);
    assert lowered[8] == LowerChar(category[8]) == 'b';
    assert lowered[9] == 'a' && lowered[10] == 'n' && lowered[11] == 'k';
    assert OccursAt(lowered, "bank", 8);
    ContainsAt(lowered, "bank");
  }
}
