/** The daily screener (screener.py): validate yesterday's watchlist, screen the universe
    into watchlist candidates and action signals, diff today against yesterday, and build
    the record that is saved. Finding and reading the newest saved file, and writing
    today's, are not modelled: the saved record is a value. */
module Screener {
  import opened Wrappers
  import opened Seqs
  import opened Text
  import opened Indicators
  import opened Tools

  /** `{'ticker': ..., 'name': ...}` as saved to disk. */
  datatype Entry = Entry(ticker: string, name: string)

  /** The saved JSON object with its two lists. */
  datatype SavedState = SavedState(actionSignals: seq<Entry>, watchlistCandidates: seq<Entry>)

  datatype Status = Strengthened | Weakened | Intact

  /** One line of the validation report. */
  datatype Validation = Unavailable(ticker: string) | Checked(ticker: string, name: string, status: Status)

  /** `previous_watchlist_data.get('watchlist_candidates', [])`; `None` when no file exists. */
  function PreviousCandidates(previousData: Option<SavedState>): seq<Entry>
  {
    match previousData
    case None => []
    case Some(s) => s.watchlistCandidates
  }

  function EntryTickers(entries: seq<Entry>): set<string>
  {
    set e | e in entries :: e.ticker
  }

  /** `previous_tickers`: built from yesterday's watchlist candidates only. */
  function PreviousTickers(previousData: Option<SavedState>): set<string>
  {
    EntryTickers(PreviousCandidates(previousData))
  }

  // ---------------------------------------------------------------------------
  // Part 1: validating yesterday's watchlist (screener.py:18-37)

  /** The status rule: a volume breakout wins even when trend or momentum failed; otherwise
      a failed trend or momentum weakens; otherwise the signal is intact. */
  function Classify(a: Analysis): (s: Status)
    ensures s == Strengthened <==> a.passesVolume
    ensures s == Weakened <==> !a.passesVolume && !(a.passesSma && a.passesRsi)
    ensures s == Intact <==> !a.passesVolume && a.passesSma && a.passesRsi
  {
    if a.passesVolume then Strengthened
    else if !a.passesSma || !a.passesRsi then Weakened
    else Intact
  }

  /** The report line for one of yesterday's entries. */
  function ValidationOf(e: Entry, fetch: string -> MarketData): Validation
  {
    match FullAnalysis(e.ticker, fetch(e.ticker))
    case None => Unavailable(e.ticker)
    case Some(a) => Checked(e.ticker, e.name, Classify(a))
  }

  /** `validate_previous_watchlist`: one line per entry of yesterday's watchlist, in order. */
  method ValidatePreviousWatchlist(previousData: Option<SavedState>, fetch: string -> MarketData)
    returns (report: seq<Validation>)
    ensures |report| == |PreviousCandidates(previousData)|
    ensures forall i :: 0 <= i < |report| ==>
      report[i] == ValidationOf(PreviousCandidates(previousData)[i], fetch)
  {
    var previous := PreviousCandidates(previousData);
    report := [];
    if previous == [] {
      return;
    }
    for i := 0 to |previous|
      invariant |report| == i
      invariant forall k :: 0 <= k < i ==> report[k] == ValidationOf(previous[k], fetch)
    {
      var stock := previous[i];
      var current := FullAnalysis(stock.ticker, fetch(stock.ticker));
      if current.None? {
        report := report + [Unavailable(stock.ticker)];
        continue;
      }
      var status := Intact;
      if current.value.passesVolume {
        status := Strengthened;
      } else if !current.value.passesSma || !current.value.passesRsi {
        status := Weakened;
      }
      report := report + [Checked(stock.ticker, stock.name, status)];
    }
  }

  // ---------------------------------------------------------------------------
  // Part 2: screening the universe (screener.py:39-52)

  /** The analyses that exist for the tickers of `universe`, in universe order. */
  function Analyses(universe: seq<string>, fetch: string -> MarketData): seq<Analysis>
  {
    if universe == [] then []
    else
      var ticker := universe[|universe| - 1];
      var init := Analyses(universe[..|universe| - 1], fetch);
      match FullAnalysis(ticker, fetch(ticker))
      case None => init
      case Some(a) => init + [a]
  }

  /** Today's watchlist candidates: the analyses passing the five watchlist conditions. */
  function Candidates(universe: seq<string>, fetch: string -> MarketData): seq<Analysis>
  {
    Filter(Analyses(universe, fetch), IsWatchlistCandidate)
  }

  predicate HasVolumeBreakout(a: Analysis)
  {
    a.passesVolume
  }

  /** The action signals among the candidates, in candidate order. */
  function ActionSignals(candidates: seq<Analysis>): seq<Analysis>
  {
    Filter(candidates, HasVolumeBreakout)
  }

  /** `screen_stocks`. */
  method ScreenStocks(universe: seq<string>, fetch: string -> MarketData)
    returns (actionSignals: seq<Analysis>, watchlistCandidates: seq<Analysis>)
    ensures watchlistCandidates == Candidates(universe, fetch)
    ensures actionSignals == ActionSignals(watchlistCandidates)
  {
    actionSignals, watchlistCandidates := [], [];
    for i := 0 to |universe|
      invariant watchlistCandidates == Candidates(universe[..i], fetch)
      invariant actionSignals == ActionSignals(watchlistCandidates)
    {
      var tickerSymbol := universe[i];
      assert universe[..i + 1][..i] == universe[..i];
      var analysis := FullAnalysis(tickerSymbol, fetch(tickerSymbol));
      if analysis.None? {
        continue;
      }
      var a := analysis.value;
      FilterSnoc(Analyses(universe[..i], fetch), a, IsWatchlistCandidate);
      if a.passesMc && a.passesPm && a.passesDe && a.passesSma && a.passesRsi {
        FilterSnoc(watchlistCandidates, a, HasVolumeBreakout);
        watchlistCandidates := watchlistCandidates + [a];
        if a.passesVolume {
          actionSignals := actionSignals + [a];
        }
      }
    }
    assert universe[..|universe|] == universe;
  }

  /** An analysis is available for a ticker of the universe exactly when the analysis of
      that ticker exists, and then it is that analysis. */
  lemma {:induction false} AnalysesMember(universe: seq<string>, fetch: string -> MarketData, a: Analysis)
    ensures a in Analyses(universe, fetch) <==>
      a.ticker in universe && FullAnalysis(a.ticker, fetch(a.ticker)) == Some(a)
  {
    if universe != [] {
      var init := universe[..|universe| - 1];
      AnalysesMember(init, fetch, a);
      assert universe == init + [universe[|universe| - 1]];
    }
  }

  /** A candidate is exactly the analysis of a universe ticker passing the five watchlist
      conditions; an action signal is a candidate with a volume breakout. A ticker without
      an analysis is in neither list. */
  lemma ScreenedMember(universe: seq<string>, fetch: string -> MarketData, a: Analysis)
    ensures a in Candidates(universe, fetch) <==>
      a.ticker in universe && FullAnalysis(a.ticker, fetch(a.ticker)) == Some(a) && IsWatchlistCandidate(a)
    ensures a in ActionSignals(Candidates(universe, fetch)) <==>
      a in Candidates(universe, fetch) && a.passesVolume
  {
    AnalysesMember(universe, fetch, a);
    FilterMember(Analyses(universe, fetch), IsWatchlistCandidate, a);
    FilterMember(Candidates(universe, fetch), HasVolumeBreakout, a);
  }

  /** The tickers of a list of analyses, in order. */
  function TickersOf(s: seq<Analysis>): (r: seq<string>)
    ensures |r| == |s|
    ensures forall i :: 0 <= i < |s| ==> r[i] == s[i].ticker
  {
    if s == [] then [] else TickersOf(s[..|s| - 1]) + [s[|s| - 1].ticker]
  }

  /** `screen_stocks` and `get_watchlist_candidates` select the same tickers in the same order. */
  lemma {:induction false} CandidatesAgreeWithWatchlist(universe: seq<string>, fetch: string -> MarketData)
    ensures TickersOf(Candidates(universe, fetch)) == WatchlistTickers(universe, fetch)
  {
    if universe != [] {
      var init := universe[..|universe| - 1];
      var ticker := universe[|universe| - 1];
      assert universe == init + [ticker];
      CandidatesAgreeWithWatchlist(init, fetch);
      FilterSnoc(init, ticker, (t: string) => QualifiesForWatchlist(t, fetch));
      var analysis := FullAnalysis(ticker, fetch(ticker));
      if analysis.Some? {
        FilterSnoc(Analyses(init, fetch), analysis.value, IsWatchlistCandidate);
        var c := Candidates(init, fetch);
        if IsWatchlistCandidate(analysis.value) {
          assert TickersOf(c + [analysis.value]) == TickersOf(c) + [ticker];
        }
      }
    }
  }

  // ---------------------------------------------------------------------------
  // The diff against yesterday (screener.py:92-96)

  /** `current_watchlist_tickers`. */
  function TickerSet(s: seq<Analysis>): set<string>
  {
    set a | a in s :: a.ticker
  }

  /** `new_signals`: today's candidates whose ticker was not on yesterday's watchlist. */
  function NewSignals(candidates: seq<Analysis>, previousTickers: set<string>): seq<Analysis>
  {
    Filter(candidates, (a: Analysis) => a.ticker !in previousTickers)
  }

  /** `still_valid_signals`: today's candidates whose ticker was on yesterday's watchlist. */
  function StillValidSignals(candidates: seq<Analysis>, previousTickers: set<string>): seq<Analysis>
  {
    Filter(candidates, (a: Analysis) => a.ticker in previousTickers)
  }

  /** `dropped_signals`: yesterday's watchlist entries whose ticker is not among today's candidates. */
  function DroppedSignals(previous: seq<Entry>, currentTickers: set<string>): seq<Entry>
  {
    Filter(previous, (e: Entry) => e.ticker !in currentTickers)
  }

  /** New and still-valid signals split today's candidates: together they hold each
      candidate exactly as often as the candidates do, and no ticker is in both. */
  lemma NewAndStillValidPartition(candidates: seq<Analysis>, previousTickers: set<string>, a: Analysis, b: Analysis)
    ensures multiset(NewSignals(candidates, previousTickers)) + multiset(StillValidSignals(candidates, previousTickers)) ==
            multiset(candidates)
    ensures a in NewSignals(candidates, previousTickers) <==> a in candidates && a.ticker !in previousTickers
    ensures b in StillValidSignals(candidates, previousTickers) <==> b in candidates && b.ticker in previousTickers
    ensures a in NewSignals(candidates, previousTickers) && b in StillValidSignals(candidates, previousTickers) ==>
            a.ticker != b.ticker
  {
    FilterPartition(candidates, (a: Analysis) => a.ticker !in previousTickers, (a: Analysis) => a.ticker in previousTickers);
    FilterMember(candidates, (a: Analysis) => a.ticker !in previousTickers, a);
    FilterMember(candidates, (a: Analysis) => a.ticker in previousTickers, b);
  }

  /** An entry is dropped exactly when it was on yesterday's watchlist and its ticker is not
      a candidate today; so no ticker is both dropped and still valid. */
  lemma DroppedExactly(previousData: Option<SavedState>, candidates: seq<Analysis>, e: Entry, a: Analysis)
    ensures e in DroppedSignals(PreviousCandidates(previousData), TickerSet(candidates)) <==>
            e in PreviousCandidates(previousData) && forall c :: c in candidates ==> c.ticker != e.ticker
    ensures e in DroppedSignals(PreviousCandidates(previousData), TickerSet(candidates)) &&
            a in StillValidSignals(candidates, PreviousTickers(previousData)) ==>
            e.ticker != a.ticker
  {
    FilterMember(PreviousCandidates(previousData), (e: Entry) => e.ticker !in TickerSet(candidates), e);
    FilterMember(candidates, (a: Analysis) => a.ticker in PreviousTickers(previousData), a);
  }

  /** A ticker that was only an action signal yesterday is not in `previous_tickers`: if it
      qualifies again it counts as new, and it is never reported as dropped. */
  lemma YesterdaysActionOnlyTickers(previousData: Option<SavedState>, candidates: seq<Analysis>, a: Analysis)
    requires previousData.Some?
    requires a.ticker in EntryTickers(previousData.value.actionSignals)
    requires a.ticker !in EntryTickers(previousData.value.watchlistCandidates)
    ensures a in candidates ==> a in NewSignals(candidates, PreviousTickers(previousData))
    ensures forall e :: e in DroppedSignals(PreviousCandidates(previousData), TickerSet(candidates)) ==>
            e.ticker != a.ticker
  {
    FilterMember(candidates, (a: Analysis) => a.ticker !in PreviousTickers(previousData), a);
    forall e | e in DroppedSignals(PreviousCandidates(previousData), TickerSet(candidates))
      ensures e.ticker != a.ticker
    {
      FilterMember(PreviousCandidates(previousData), (e: Entry) => e.ticker !in TickerSet(candidates), e);
    }
  }

  /** A previous entry reported as weakened, or whose data could not be retrieved, is not a
      candidate today and therefore is among the dropped signals, provided the screening
      request for its ticker returns what the validation request returned. */
  lemma WeakenedOrUnavailableIsDropped(previousData: Option<SavedState>, universe: seq<string>,
                                       validationFetch: string -> MarketData,
                                       screeningFetch: string -> MarketData, e: Entry)
    requires e in PreviousCandidates(previousData)
    requires ValidationOf(e, validationFetch).Unavailable? || ValidationOf(e, validationFetch).status == Weakened
    requires screeningFetch(e.ticker) == validationFetch(e.ticker)
    ensures e in DroppedSignals(PreviousCandidates(previousData), TickerSet(Candidates(universe, screeningFetch)))
  {
    var candidates := Candidates(universe, screeningFetch);
    forall c | c in candidates
      ensures c.ticker != e.ticker
    {
      ScreenedMember(universe, screeningFetch, c);
    }
    FilterMember(PreviousCandidates(previousData), (e: Entry) => e.ticker !in TickerSet(candidates), e);
  }

  /** The two requests are separate: when the data changes between them, an entry reported
      as unavailable can still be a candidate today and so not be dropped. */
  lemma UnavailableCanRequalify(ticker: string, info: Info, history: History)
    requires FullAnalysis(ticker, MarketData(Some(info), history)).Some?
    requires IsWatchlistCandidate(FullAnalysis(ticker, MarketData(Some(info), history)).value)
    ensures var e := Entry(ticker, ticker);
            var previousData := Some(SavedState([], [e]));
            var validationFetch := (t: string) => MarketData(None, history);
            var screeningFetch := (t: string) => MarketData(Some(info), history);
            ValidationOf(e, validationFetch).Unavailable? &&
            e !in DroppedSignals(PreviousCandidates(previousData), TickerSet(Candidates([ticker], screeningFetch)))
  {
    var e := Entry(ticker, ticker);
    var screeningFetch := (t: string) => MarketData(Some(info), history);
    var a := FullAnalysis(ticker, screeningFetch(ticker)).value;
    ScreenedMember([ticker], screeningFetch, a);
    assert a.ticker == ticker;
    assert ticker in TickerSet(Candidates([ticker], screeningFetch));
    FilterMember([e], (x: Entry) => x.ticker !in TickerSet(Candidates([ticker], screeningFetch)), e);
  }

  // ---------------------------------------------------------------------------
  // The record saved to disk (screener.py:119-120)

  function ToEntry(a: Analysis): Entry
  {
    Entry(a.ticker, a.name)
  }

  /** `[{'ticker': s['ticker'], 'name': s['name']} for s in ...]`. */
  function Entries(s: seq<Analysis>): (r: seq<Entry>)
    ensures |r| == |s|
    ensures forall i :: 0 <= i < |s| ==> r[i] == ToEntry(s[i])
  {
    if s == [] then [] else Entries(s[..|s| - 1]) + [ToEntry(s[|s| - 1])]
  }

  /** The candidates saved as the watchlist: those that are not action signals. */
  function WatchOnly(candidates: seq<Analysis>, actionSignals: seq<Analysis>): seq<Analysis>
  {
    Filter(candidates, (a: Analysis) => a.ticker !in TickerSet(actionSignals))
  }

  /** `{"action_signals": actions_to_save, "watchlist_candidates": watchlist_to_save}`. */
  function SaveRecord(actionSignals: seq<Analysis>, candidates: seq<Analysis>): SavedState
  {
    SavedState(Entries(actionSignals), Entries(WatchOnly(candidates, actionSignals)))
  }

  lemma EntryTickersOfEntries(s: seq<Analysis>)
    ensures EntryTickers(Entries(s)) == TickerSet(s)
  {
    var es := Entries(s);
    forall t | t in TickerSet(s) ensures t in EntryTickers(es) {
      var i :| 0 <= i < |s| && s[i].ticker == t;
      assert es[i].ticker == t;
    }
  }

  /** The two saved lists never share a ticker, and when the action signals are drawn from
      the candidates, together they name exactly the candidates' tickers. */
  lemma SavedListsDisjoint(actionSignals: seq<Analysis>, candidates: seq<Analysis>)
    ensures var saved := SaveRecord(actionSignals, candidates);
            EntryTickers(saved.watchlistCandidates) !! EntryTickers(saved.actionSignals)
    ensures (forall a :: a in actionSignals ==> a in candidates) ==>
            var saved := SaveRecord(actionSignals, candidates);
            EntryTickers(saved.watchlistCandidates) + EntryTickers(saved.actionSignals) == TickerSet(candidates)
  {
    var watch := WatchOnly(candidates, actionSignals);
    EntryTickersOfEntries(actionSignals);
    EntryTickersOfEntries(watch);
    forall a | a in candidates
      ensures a in watch <==> a.ticker !in TickerSet(actionSignals)
    {
      FilterMember(candidates, (a: Analysis) => a.ticker !in TickerSet(actionSignals), a);
    }
    forall a | a in watch
      ensures a in candidates
    {
      FilterMember(candidates, (a: Analysis) => a.ticker !in TickerSet(actionSignals), a);
    }
  }

  // ---------------------------------------------------------------------------
  // The universe: `sorted(list(set(combined_universe)))` (screener.py:84-85)

  predicate StrictlySorted(s: seq<string>)
  {
    forall i, j :: 0 <= i < j < |s| ==> Less(s[i], s[j])
  }

  /** Inserts `x` into a strictly sorted list unless it is already there. */
  function Insert(x: string, s: seq<string>): (r: seq<string>)
    requires StrictlySorted(s)
    ensures StrictlySorted(r)
    ensures forall y :: y in r <==> y == x || y in s
  {
    if s == [] then [x]
    else if x == s[0] then s
    else if Less(x, s[0]) then
      assert forall j :: 0 <= j < |s| ==> Less(x, s[j]) by {
        forall j | 0 <= j < |s| ensures Less(x, s[j]) {
          if j > 0 { LessTransitive(x, s[0], s[j]); }
        }
      }
      [x] + s
    else
      LessTotal(x, s[0]);
      var rest := Insert(x, s[1..]);
      assert forall y :: y in s[1..] ==> Less(s[0], y);
      [s[0]] + rest
  }

  /** The distinct tickers of `universe` in increasing order. */
  function SortedUnique(universe: seq<string>): (r: seq<string>)
    ensures StrictlySorted(r)
    ensures forall t :: t in r <==> t in universe
  {
    if universe == [] then []
    else
      var init := universe[..|universe| - 1];
      assert universe == init + [universe[|universe| - 1]];
      Insert(universe[|universe| - 1], SortedUnique(init))
  }

  /** A strictly sorted list holds no ticker twice. */
  lemma StrictlySortedDistinct(s: seq<string>, i: int, j: int)
    requires StrictlySorted(s)
    requires 0 <= i < j < |s|
    ensures s[i] != s[j]
  {
    if s[i] == s[j] {
      LessIrreflexive(s[i]);
    }
  }

  // ---------------------------------------------------------------------------
  // The main block (screener.py:70-123)

  /** Everything one run reports and the record it saves. */
  datatype DailyRun = DailyRun(
    validation: seq<Validation>,
    universe: seq<string>,
    actionSignals: seq<Analysis>,
    watchlistCandidates: seq<Analysis>,
    newSignals: seq<Analysis>,
    stillValidSignals: seq<Analysis>,
    droppedSignals: seq<Entry>,
    saved: SavedState)

  /** The main block. Validation and screening request each ticker's data separately, so
      they read the provider through two functions that may disagree. */
  method RunScreener(previousData: Option<SavedState>, combinedUniverse: seq<string>,
                     validationFetch: string -> MarketData, screeningFetch: string -> MarketData)
    returns (run: DailyRun)
    ensures |run.validation| == |PreviousCandidates(previousData)|
    ensures forall i :: 0 <= i < |run.validation| ==>
      run.validation[i] == ValidationOf(PreviousCandidates(previousData)[i], validationFetch)
    ensures StrictlySorted(run.universe)
    ensures forall t :: t in run.universe <==> t in combinedUniverse
    ensures run.watchlistCandidates == Candidates(run.universe, screeningFetch)
    ensures run.actionSignals == ActionSignals(run.watchlistCandidates)
    ensures run.newSignals == NewSignals(run.watchlistCandidates, PreviousTickers(previousData))
    ensures run.stillValidSignals == StillValidSignals(run.watchlistCandidates, PreviousTickers(previousData))
    ensures run.droppedSignals == DroppedSignals(PreviousCandidates(previousData), TickerSet(run.watchlistCandidates))
    ensures run.saved == SaveRecord(run.actionSignals, run.watchlistCandidates)
    ensures EntryTickers(run.saved.watchlistCandidates) !! EntryTickers(run.saved.actionSignals)
    ensures EntryTickers(run.saved.watchlistCandidates) + EntryTickers(run.saved.actionSignals) ==
            TickerSet(run.watchlistCandidates)
  {
    var validation := ValidatePreviousWatchlist(previousData, validationFetch);
    var previousTickers := PreviousTickers(previousData);
    var uniqueStocks := SortedUnique(combinedUniverse);
    var actionSignals, watchlistCandidates := ScreenStocks(uniqueStocks, screeningFetch);
    var currentTickers := TickerSet(watchlistCandidates);
    var newSignals := NewSignals(watchlistCandidates, previousTickers);
    var stillValid := StillValidSignals(watchlistCandidates, previousTickers);
    var dropped := DroppedSignals(PreviousCandidates(previousData), currentTickers);
    var saved := SaveRecord(actionSignals, watchlistCandidates);
    forall a | a in actionSignals
      ensures a in watchlistCandidates
    {
      FilterMember(watchlistCandidates, HasVolumeBreakout, a);
    }
    SavedListsDisjoint(actionSignals, watchlistCandidates);
    run := DailyRun(validation, uniqueStocks, actionSignals, watchlistCandidates,
                    newSignals, stillValid, dropped, saved);
  }
}
