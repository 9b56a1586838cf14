# Swing screener core in Dafny

This project models the deterministic core of a daily Indian-equity swing screener. It has three parts:

- **Filter verdicts and the funnel.** `get_full_analysis` turns one ticker's fundamentals and 60-day price/volume history into six verdicts:
  - a market-cap band;
  - a profit margin above 5%;
  - a debt/equity ceiling, waived for financial and bank categories;
  - SMA5 above SMA20;
  - an RSI below 70;
  - a volume breakout.

  `analytics.py` applies the same rules as short-circuiting filters. They bump the counters of a shared `analytics` dictionary, and its main loop counts the tickers that reach each stage.
- **Swing targets.** `calculate_price_targets` takes the last 90 sessions. It finds the first lowest low and the highest high strictly after it, then extends that swing by the Fibonacci ratios 1.618 and 2.618. It has explicit "N/A" and "No Upward Swing" outcomes.
- **The daily screener.** `screener.py` does five things:
  - validates yesterday's watchlist (Strengthened / Weakened / Intact);
  - de-duplicates and sorts the universe;
  - splits it into watchlist candidates and action signals;
  - diffs today's candidates against yesterday's into new, still-valid and dropped;
  - builds the record it saves, in which the watchlist excludes action tickers.

The market-data provider is a parameter `fetch: string -> MarketData`:

- A failed `info` request is `info == None`.
- A failed or empty history request is an empty history.
- The screener's validation and its screening request the same ticker separately, so `Screener.RunScreener` takes one such function for each.

Python's `dict.get(key, default)` on yfinance's `info` dictionary has three cases: an absent key gives the default, a key holding `None` gives `None`, and a key holding a value gives that value. The datatype `Field<T> = Missing | Null | Present(value)` keeps these apart. A `None` market cap or category makes the source raise, and the model follows that.

Histories are a subset type: closes and volumes have the same length, and a history is either empty or at least 20 sessions long. Every indicator is then a number.

Modules:

- `Wrappers`: `Option`.
- `Seqs`: order-preserving `Filter` and its lemmas.
- `Text`: ASCII `lower()`, the substring test and string `<`.
- `Indicators`: SMAs and the volume mean.
- `Tools`: the analysis and the watchlist tool.
- `SwingTargets`.
- `Screener`.
- `Analytics`: the funnel, with the `analytics` dictionary as the class `FunnelAnalytics`.

Two behaviours of the code worth noting:

- "New" and "dropped" are computed against yesterday's *watchlist_candidates* only, not against everything that qualified yesterday. A ticker that was only an action signal yesterday is therefore new if it requalifies, and never dropped (`Screener.YesterdaysActionOnlyTickers`).
- A history shorter than 20 sessions gives NaN indicators in the code; the `History` subset type excludes such histories.

## Model

| member | source | states |
|---|---|---|
| Tools.Get | tools.py:23-27 | `info.get(key, default)` yields `None` exactly when the key holds `None`, the default when the key is absent, and the key's value when it holds one |
| Tools.GetOrNone | analytics.py:25 | `info.get(key)` yields a value exactly when the key holds one, and that value is the key's |
| Tools.FullAnalysis | tools.py:14-52 | the analysis is `None` exactly when the info request failed, the history is empty, or a `None` market cap or category makes the code raise; otherwise it carries the ticker, `passes_mc` iff the cap is present and in [10e9, 200e9] (a missing cap is 0 and fails), `passes_pm` iff the margin is present and > 0.05, `passes_de` iff the lower-cased category contains "financial" or "bank" or the D/E is present and < 100, and the trend, RSI and volume verdicts of the history; its name is `longName` or else the ticker, `sma_20_value` is the SMA20, `market_cap` is the cap (0 when absent) and `profit_margin` is the margin's `get` result |
| Tools.GetWatchlistCandidates | tools.py:54-62 | the loop returns exactly the universe tickers, in order, whose analysis exists and passes mc, pm, de, sma and rsi |
| Tools.WatchlistTickersMember | tools.py:59-61 | a ticker is on the watchlist iff it is in the universe and its analysis exists and passes the five conditions; volume plays no part |
| Tools.FinancialCategoryIgnoresDebt | tools.py:45 | with a financial or bank category `passes_de` holds, and changing the D/E entry does not change the analysis |
| Tools.PrivateBanksAreFinancial | tools.py:26-45 | the lower-cased category "Private Banks" counts as financial, so it passes the leverage rule whatever the D/E, present or absent |
| Text.ToLower | tools.py:26 | lower-casing keeps the length and maps each character by ASCII lower-casing |
| Text.ContainsAt | tools.py:45 | the substring test holds iff the pattern occurs at some position |
| Text.LessIrreflexive | screener.py:85 | no string sorts before itself |
| Text.LessTransitive | screener.py:85 | string order is transitive |
| Text.LessTotal | screener.py:85 | two different strings are ordered one way or the other |
| Indicators.TrendUpAgainstEarlierCloses | tools.py:29-32 | SMA5 > SMA20 iff the mean of the last 5 closes exceeds the mean of the 15 closes before them |
| Indicators.VolumeBreakoutThreshold | tools.py:34-48 | the breakout compares only the last volume with 3 × the mean of the 15 sessions before it, strictly: replacing the last volume keeps that mean, and the test holds iff the new volume is above 3 × it |
| SwingTargets.LastSessions | tools.py:85 | `iloc[-90:]` keeps the last 90 sessions, or the whole history when it is shorter |
| SwingTargets.FirstMinLow | tools.py:86-87 | `idxmin` is a position holding the lowest low, with every earlier low strictly higher |
| SwingTargets.MaxHigh | tools.py:93 | the maximum high is attained in the run and bounds every high |
| SwingTargets.CalculatePriceTargets | tools.py:82-83 | both targets are "N/A" exactly for an empty history |
| SwingTargets.ExtendOrdered | tools.py:94-100 | targets exist iff the range is positive; then swing high < target_1 < target_2 and target_2 − target_1 is the range |
| SwingTargets.FirstMinLowUnique | tools.py:86 | the first lowest low is the only position that is lowest with nothing as low before it |
| SwingTargets.MaxHighAt | tools.py:93 | a high no session exceeds is the maximum |
| SwingTargets.SwingDeterminesTargets | tools.py:85-100 | any swing (first lowest low, a later highest high) determines the result: the Fibonacci extensions, or "No Upward Swing" when the range is not positive |
| SwingTargets.LowOnLastSessionHasNoSwing | tools.py:88-91 | when the first lowest low is the window's last session the result is "No Upward Swing" |
| SwingTargets.TargetsComeFromASwing | tools.py:93-102 | numeric targets come from a swing with a positive range; swing high < target_1 < target_2 and target_2 − target_1 is the range |
| SwingTargets.TargetsGrowWithRange | tools.py:99-100 | for a fixed high a wider range raises both targets |
| SwingTargets.StaleHistoryIgnored | tools.py:81-85 | sessions older than the last 90 never change the targets |
| Screener.Classify | screener.py:32-36 | Strengthened iff volume breakout (even with a failed trend or momentum); Weakened iff no breakout and trend or momentum failed; Intact otherwise |
| Screener.ValidatePreviousWatchlist | screener.py:18-37 | one report line per entry of yesterday's watchlist, in order: "could not retrieve" when the analysis is `None`, otherwise the entry's classification |
| Screener.ScreenStocks | screener.py:39-52 | the loop returns the candidates (analyses passing the five conditions, in universe order) and the action signals, which are those candidates with a volume breakout, in order |
| Screener.AnalysesMember | screener.py:43-44 | an analysis is kept exactly when it is the existing analysis of a universe ticker |
| Screener.ScreenedMember | screener.py:43-49 | a candidate is the analysis of a universe ticker passing the five conditions, and an action signal is a candidate with a breakout; a ticker without analysis is in neither list |
| Screener.CandidatesAgreeWithWatchlist | screener.py:45-47 | `screen_stocks` selects the same tickers in the same order as `get_watchlist_candidates` |
| Screener.NewAndStillValidPartition | screener.py:94-95 | new and still-valid signals together hold every candidate exactly as often as the candidates do; membership is by `previous_tickers`; no ticker is in both |
| Screener.DroppedExactly | screener.py:93-96 | an entry is dropped iff it was on yesterday's watchlist and no candidate today has its ticker; no ticker is both dropped and still valid |
| Screener.YesterdaysActionOnlyTickers | screener.py:81-96 | a ticker only in yesterday's action signals counts as new when it requalifies and is never dropped |
| Screener.WeakenedOrUnavailableIsDropped | screener.py:28-96 | a previous entry reported as weakened or unavailable is among the dropped signals when the screening request for its ticker returns what the validation request returned |
| Screener.UnavailableCanRequalify | screener.py:28-96 | when the validation request fails and the screening request returns qualifying data, the entry is reported unavailable and yet is not dropped |
| Screener.Entries | screener.py:119-120 | the saved list has one {ticker, name} entry per analysis, in order |
| Screener.SavedListsDisjoint | screener.py:119-120 | the two saved lists share no ticker, and together they name exactly the candidates' tickers |
| Screener.Insert | screener.py:85 | inserting into a strictly sorted list keeps it strictly sorted and adds exactly the new element |
| Screener.SortedUnique | screener.py:85 | `sorted(list(set(...)))` is strictly sorted and has exactly the universe's tickers |
| Screener.StrictlySortedDistinct | screener.py:85 | a strictly sorted universe holds no ticker twice |
| Screener.RunScreener | screener.py:70-123 | the main block: validation of yesterday's watchlist against the validation requests, the sorted unique universe, the screen against the screening requests, the three diff lists and the saved record, whose two lists are disjoint and together name the candidates |
| Analytics.PrimaryStagesPassed | analytics.py:13-41 | the number of primary counters bumped: at least 1 iff the cap rule passes, at least 2 iff the margin rule also passes, 3 iff the leverage rule also passes |
| Analytics.SecondaryStagesPassed | analytics.py:43-63 | the same for trend, RSI and volume; an empty history bumps none |
| Analytics.PassingNested | analytics.py:84-93 | a later stage of the funnel never counts more tickers than an earlier one |
| Analytics.FunnelAgreesWithAnalysis | analytics.py:19-38 | for a ticker with history, the primary filters all pass iff its analysis passes mc, pm and de; it is qualified iff it is an action signal of the screener |
| Analytics.FunnelAnalytics.constructor | analytics.py:84 | all counters start at zero |
| Analytics.FunnelAnalytics.ApplyPrimaryFilters | analytics.py:13-41 | returns True iff cap, margin and leverage rules all pass; each passed rule bumps its counter by one, the first failure or exception stops without undoing earlier bumps; nothing else changes; the counters stay nested |
| Analytics.FunnelAnalytics.ApplySecondaryFilters | analytics.py:43-63 | returns True iff SMA5 > SMA20, RSI < 70 and the volume breakout hold; same counter discipline for sma, rsi and volume |
| Analytics.PassingSnoc | analytics.py:85-93 | screening one more ticker adds it to a stage's list exactly when it reaches that stage |
| Analytics.TallyCountsPassing | analytics.py:84-93 | after the loop each counter equals the number of tickers reaching its stage, `total_screened` the number screened, and `primary_passed == de_passes` |
| Analytics.UniqueCount | analytics.py:80-87 | a duplicate-free enumeration of the universe's set has as many positions as the set has tickers |
| Analytics.ScreenTicker | analytics.py:85-93 | one pass of the loop body moves the counters by exactly one ticker's stages and qualifies the ticker iff it passes every filter |
| Analytics.RunFunnel | analytics.py:80-93 | `total_screened` is the number of unique tickers, every counter is the size of its stage, `primary_passed == de_passes`, `sma_passes <= primary_passed`, and `qualified_stocks` is exactly the fully passing tickers with length `volume_passes` |

## Left out

- Market-data, news and language-model calls are not modelled. yfinance `info`/`history` is the `fetch` parameter. `get_news_headlines` (tools.py:64-75) and the Gemini/LangChain agent chains in moderator.py and specialist_agents.py are not part of this model. All are external I/O.
- dashboard.py (a Streamlit UI) and debug.py are not part of this model. The dashboard's status rule duplicates `Screener.Classify`.
- RSI comes from a library: it enters as a given number, and only the `< 70` test is modelled.
- IEEE floating point is not modelled: prices, ratios and volumes are reals. NaN from histories shorter than 20 sessions is excluded by the `History` subset type.
- Price targets are reals: the `₹…:.2f` formatting is not modelled.
- `calculate_price_targets`' "Error" outcome (tools.py:103-104) is not modelled. A failed request for the one-year history (tools.py:80-81) is not represented: the model's input is the list of sessions itself, and with a non-empty list nothing in tools.py:85-102 raises.
- Session dates are positions: "after the low's date" is "at a later position", which assumes dates increase strictly.
- `Text.ToLower` lower-cases only ASCII letters, not the full Unicode `str.lower()`.
- A `longName` key holding `None` cannot be represented: `Info.longName` is absent or a string.
- In analytics.py the history fetch (analytics.py:90) is outside any `try`, so a failing request ends the program. The model takes the fetch result as given and treats a failed fetch as an empty history.
- The order of `list(set(stock_universe))` (analytics.py:80) is whatever the set yields: `Analytics.RunFunnel` takes any duplicate-free enumeration of the universe as a parameter.
- File handling is not modelled: `glob`, newest file by ctime, JSON load/dump and the dated filename (screener.py:72-78, 116-123). Yesterday's record is an `Option<SavedState>` and today's record is a value.
- Printing, tqdm progress bars, the report's detail strings and `print_stock_report` (screener.py:54-67) are not modelled.
- `screen_stocks`' `except` branch (screener.py:50-51) is unreachable in the model, because `get_full_analysis` already turns every exception into `None`.
- The funnel report printout and the hard-coded ticker list (analytics.py:66-78, 95-114) are not modelled.
- tools.py's test block (tools.py:106-137) is not modelled.
- Analytics.FunnelAnalytics.ApplyPrimaryFilters: the info request is made by the caller, with `None` standing for a request that raised.
- Screener.WeakenedOrUnavailableIsDropped: holds only when the two requests for the ticker return the same data; `Screener.UnavailableCanRequalify` shows the case where they differ.
- Analytics.ScreenTicker: the source has no such function. It is the main loop's body, separated so that the loop's proof stays small.
