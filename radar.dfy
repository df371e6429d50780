/**
 * The radar page's view state and its event handlers (App.tsx). The page
 * keeps one state record; every handler replaces it through an updater
 * `prev => ({ ...prev, ... })`. The updaters are the functions below, and
 * class `App` holds the record and runs the handlers, each `await` split
 * into the call that starts the request and the call that settles it.
 */
module Radar {
  import opened Types
  import opened Strings
  import opened Gemini

  datatype ViewState = ViewState(
    scanning: bool,
    query: string,
    result: Option<TrendAnalysis>,
    error: Option<string>,
    selectedForceKey: Option<DrivingForce>,
    generatingArticle: bool,
    articleResult: Option<string>,
    showArticleModal: bool,
    showThought: bool)

  /** The state the page starts in. */
  const Initial: ViewState := ViewState(false, "", None, None, None, false, None, false, false)

  const ScanError: string := "掃描目前受阻。請調整輸入信號後重試。"
  const ArticleError: string := "文章生成失敗。"

  // ---------------------------------------------------------------------------
  // Which fields an update touches
  // ---------------------------------------------------------------------------

  datatype Field = Scanning | Query | Result | Error | SelectedForceKey
                 | GeneratingArticle | ArticleResult | ShowArticleModal | ShowThought

  predicate SameField(a: ViewState, b: ViewState, f: Field) {
    match f
    case Scanning => a.scanning == b.scanning
    case Query => a.query == b.query
    case Result => a.result == b.result
    case Error => a.error == b.error
    case SelectedForceKey => a.selectedForceKey == b.selectedForceKey
    case GeneratingArticle => a.generatingArticle == b.generatingArticle
    case ArticleResult => a.articleResult == b.articleResult
    case ShowArticleModal => a.showArticleModal == b.showArticleModal
    case ShowThought => a.showThought == b.showThought
  }

  /** Every field outside `fields` is the same in `prev` and `next`. */
  predicate OnlyChanged(prev: ViewState, next: ViewState, fields: set<Field>) {
    forall f :: f !in fields ==> SameField(prev, next, f)
  }

  // ---------------------------------------------------------------------------
  // The state updaters
  // ---------------------------------------------------------------------------

  /**
   * `!searchQuery.trim()`: the guard of `handleScan`. A query is blank exactly
   * when it consists of whitespace only.
   */
  predicate IsBlank(q: string)
    ensures IsBlank(q) <==> AllWhitespace(q)
  {
    Trim(q) == ""
  }

  /** A scan starts: the spinner is on and the previous report, error and article are gone. */
  function ScanBegun(prev: ViewState): (s: ViewState)
    ensures s.scanning && s.error.None? && s.result.None? && s.articleResult.None? && !s.showThought
    ensures OnlyChanged(prev, s, {Scanning, Error, Result, ArticleResult, ShowThought})
  {
    prev.(scanning := true, error := None, result := None, articleResult := None, showThought := false)
  }

  /** The scan delivered a report. */
  function ScanSucceeded(prev: ViewState, report: TrendAnalysis): (s: ViewState)
    ensures s.result == Some(report) && !s.scanning
    ensures OnlyChanged(prev, s, {Result, Scanning})
  {
    prev.(result := Some(report), scanning := false)
  }

  /** The scan failed: the fixed message is shown. */
  function ScanFailed(prev: ViewState): (s: ViewState)
    ensures !s.scanning && s.error == Some(ScanError)
    ensures OnlyChanged(prev, s, {Scanning, Error})
  {
    prev.(scanning := false, error := Some(ScanError))
  }

  /** The cached article is shown again. */
  function ArticleReopened(prev: ViewState): (s: ViewState)
    ensures s.showArticleModal
    ensures OnlyChanged(prev, s, {ShowArticleModal})
  {
    prev.(showArticleModal := true)
  }

  /** Article generation starts with the modal open and no article yet. */
  function ArticleBegun(prev: ViewState): (s: ViewState)
    ensures s.generatingArticle && s.showArticleModal && s.articleResult.None?
    ensures OnlyChanged(prev, s, {GeneratingArticle, ShowArticleModal, ArticleResult})
  {
    prev.(generatingArticle := true, showArticleModal := true, articleResult := None)
  }

  function ArticleSucceeded(prev: ViewState, article: string): (s: ViewState)
    ensures s.articleResult == Some(article) && !s.generatingArticle
    ensures OnlyChanged(prev, s, {ArticleResult, GeneratingArticle})
  {
    prev.(articleResult := Some(article), generatingArticle := false)
  }

  function ArticleFailed(prev: ViewState): (s: ViewState)
    ensures !s.generatingArticle && s.error == Some(ArticleError)
    ensures OnlyChanged(prev, s, {GeneratingArticle, Error})
  {
    prev.(generatingArticle := false, error := Some(ArticleError))
  }

  /** The Escape key closes both modals. */
  function Escaped(prev: ViewState): (s: ViewState)
    ensures s.selectedForceKey.None? && !s.showArticleModal
    ensures OnlyChanged(prev, s, {SelectedForceKey, ShowArticleModal})
  {
    prev.(selectedForceKey := None, showArticleModal := false)
  }

  /** `closeForceModal` */
  function ForceModalClosed(prev: ViewState): (s: ViewState)
    ensures s.selectedForceKey.None?
    ensures OnlyChanged(prev, s, {SelectedForceKey})
  {
    prev.(selectedForceKey := None)
  }

  /** `closeArticleModal` */
  function ArticleModalClosed(prev: ViewState): (s: ViewState)
    ensures !s.showArticleModal
    ensures OnlyChanged(prev, s, {ShowArticleModal})
  {
    prev.(showArticleModal := false)
  }

  /** The reasoning panel's toggle button. */
  function ThoughtToggled(prev: ViewState): (s: ViewState)
    ensures s.showThought != prev.showThought
    ensures OnlyChanged(prev, s, {ShowThought})
  {
    prev.(showThought := !prev.showThought)
  }

  /** Typing in the query box, or picking a preset query. */
  function QueryEdited(prev: ViewState, q: string): (s: ViewState)
    ensures s.query == q
    ensures OnlyChanged(prev, s, {Query})
  {
    prev.(query := q)
  }

  /** Clicking one of the force cards. */
  function ForceSelected(prev: ViewState, key: DrivingForce): (s: ViewState)
    ensures s.selectedForceKey == Some(key)
    ensures OnlyChanged(prev, s, {SelectedForceKey})
  {
    prev.(selectedForceKey := Some(key))
  }

  // ---------------------------------------------------------------------------
  // Derived values
  // ---------------------------------------------------------------------------

  /** `selectedForce`: the detail shown in the force modal. */
  function SelectedForce(s: ViewState): (r: Option<ForceDetail>)
    ensures r.Some? <==> s.result.Some? && s.selectedForceKey.Some?
    ensures r.Some? ==> r.value == s.result.value.forces.Get(s.selectedForceKey.value)
  {
    if s.result.Some? && s.selectedForceKey.Some? then Some(s.result.value.forces.Get(s.selectedForceKey.value))
    else None
  }

  const DownloadPrefix: string := "【深度專題】"
  const DefaultDownloadTitle: string := "趨勢分析"

  /** The name of the downloaded article file. */
  function DownloadFileName(s: ViewState): (name: string)
    ensures s.result.Some? && s.result.value.title != "" ==> name == DownloadPrefix + s.result.value.title + ".txt"
    ensures !(s.result.Some? && s.result.value.title != "") ==> name == DownloadPrefix + DefaultDownloadTitle + ".txt"
  {
    var title := if s.result.Some? && s.result.value.title != "" then s.result.value.title else DefaultDownloadTitle;
    DownloadPrefix + title + ".txt"
  }

  /** The file name always carries the prefix, a non-empty title and the extension. */
  lemma DownloadFileNameShape(s: ViewState)
    ensures var name := DownloadFileName(s);
            StartsWith(name, DownloadPrefix) && |name| > |DownloadPrefix| + 4
            && name[|name| - 4..] == ".txt"
  {
    var name := DownloadFileName(s);
    var title := if s.result.Some? && s.result.value.title != "" then s.result.value.title else DefaultDownloadTitle;
    assert name == DownloadPrefix + (title + ".txt");
    assert name[..|DownloadPrefix|] == DownloadPrefix;
    assert name[|name| - 4..] == ".txt";
  }

  /** The things the page keeps true of its state. */
  ghost predicate WellFormed(s: ViewState) {
    && (s.result.Some? ==> forall i :: 0 <= i < |s.result.value.sources| ==> NormalisedSource(s.result.value.sources[i]))
    && (s.articleResult.Some? ==> s.articleResult.value != "")
    && (s.error.Some? ==> s.error.value == ScanError || s.error.value == ArticleError)
  }

  // ---------------------------------------------------------------------------
  // Properties of event sequences
  // ---------------------------------------------------------------------------

  /**
   * A scan ends with a report and no error, or with the scan error and no
   * report; never with both.
   */
  lemma ScanOutcomesExclusive(s: ViewState, report: TrendAnalysis)
    ensures var ok := ScanSucceeded(ScanBegun(s), report);
            ok.result == Some(report) && ok.error.None? && !ok.scanning
    ensures var failed := ScanFailed(ScanBegun(s));
            failed.result.None? && failed.error == Some(ScanError) && !failed.scanning
  {
  }

  /** An article failure keeps the report on screen beside its error. */
  lemma ArticleFailureKeepsReport(s: ViewState)
    ensures ArticleFailed(s).result == s.result && ArticleFailed(s).error == Some(ArticleError)
  {
  }

  /** Toggling the reasoning panel twice restores the state. */
  lemma ThoughtToggleTwice(s: ViewState)
    ensures ThoughtToggled(ThoughtToggled(s)) == s
  {
  }

  /** Escape is both close functions, in either order, and pressing it again does nothing. */
  lemma EscapeClosesBoth(s: ViewState)
    ensures Escaped(s) == ForceModalClosed(ArticleModalClosed(s))
    ensures Escaped(s) == ArticleModalClosed(ForceModalClosed(s))
    ensures Escaped(Escaped(s)) == Escaped(s)
  {
  }

  /** While a new scan runs, no force detail is shown, whatever key was selected. */
  lemma ScanHidesSelectedForce(s: ViewState)
    ensures SelectedForce(ScanBegun(s)).None?
  {
  }

  /** Picking a card shows that force of the current report once there is one. */
  lemma SelectingShowsForce(s: ViewState, key: DrivingForce)
    ensures SelectedForce(ForceSelected(s, key)) == if s.result.Some? then Some(s.result.value.forces.Get(key)) else None
    ensures SelectedForce(ForceModalClosed(s)).None?
  {
  }

  /** A file to download: its name, its text and its media type. */
  datatype Download = Download(fileName: string, contents: string, mimeType: string)

  class App {
    var state: ViewState

    ghost predicate Valid()
      reads this
    {
      WellFormed(state)
    }

    constructor ()
      ensures Valid() && state == Initial
    {
      state := Initial;
    }

    /**
     * `handleScan` up to its `await`: a blank query changes nothing and sends
     * nothing; otherwise the scan begins and the query is sent.
     */
    method HandleScan(searchQuery: string) returns (request: Option<string>)
      requires Valid()
      modifies this
      ensures Valid()
      ensures IsBlank(searchQuery) ==> request.None? && state == old(state)
      ensures !IsBlank(searchQuery) ==> request == Some(searchQuery) && state == ScanBegun(old(state))
    {
      if IsBlank(searchQuery) {
        return None;
      }
      state := ScanBegun(state);
      request := Some(searchQuery);
    }

    /**
     * The awaited `analyzeTrend` settles. `reply` is `None` when the request
     * itself failed; a reply whose text does not parse fails the same way.
     */
    method CompleteScan(reply: Option<Response>, parse: string -> Option<Payload>, now: string)
      requires Valid()
      modifies this
      ensures Valid()
      ensures var report := if reply.Some? then AnalyzeTrend(reply.value, parse, now) else None;
              state == if report.Some? then ScanSucceeded(old(state), report.value) else ScanFailed(old(state))
    {
      var report := if reply.Some? then AnalyzeTrend(reply.value, parse, now) else None;
      if report.Some? {
        state := ScanSucceeded(state, report.value);
      } else {
        state := ScanFailed(state);
      }
    }

    /**
     * `handleGenerateFullArticle` up to its `await`. Without a report nothing
     * happens; with a cached article the modal only reopens; otherwise the
     * generation begins and the prompt built from the report is sent.
     */
    method HandleGenerateFullArticle() returns (request: Option<string>)
      requires Valid()
      modifies this
      ensures Valid()
      ensures old(state).result.None? ==> request.None? && state == old(state)
      ensures old(state).result.Some? && Truthy(old(state).articleResult) ==>
                request.None? && state == ArticleReopened(old(state))
      ensures old(state).result.Some? && !Truthy(old(state).articleResult) ==>
                request == Some(ArticlePrompt(old(state).result.value)) && state == ArticleBegun(old(state))
      // Under Valid() a stored article is never empty, so the cache is used exactly when one is stored.
      ensures old(state).result.Some? ==>
                (request.None? <==> old(state).articleResult.Some?)
    {
      if state.result.None? {
        return None;
      }
      if Truthy(state.articleResult) {
        state := ArticleReopened(state);
        return None;
      }
      var report := state.result.value;
      state := ArticleBegun(state);
      request := Some(ArticlePrompt(report));
    }

    /**
     * The awaited `generateArticle` settles: `reply` is `None` when the
     * request failed, otherwise the reply's text, which may be missing.
     */
    method CompleteArticle(reply: Option<Option<string>>)
      requires Valid()
      modifies this
      ensures Valid()
      ensures reply.Some? ==> state == ArticleSucceeded(old(state), ArticleText(reply.value))
      ensures reply.None? ==> state == ArticleFailed(old(state))
    {
      if reply.Some? {
        state := ArticleSucceeded(state, ArticleText(reply.value));
      } else {
        state := ArticleFailed(state);
      }
    }

    /** The window's keydown listener: only Escape does anything. */
    method HandleKeyDown(key: string)
      requires Valid()
      modifies this
      ensures Valid()
      ensures state == if key == "Escape" then Escaped(old(state)) else old(state)
    {
      if key == "Escape" {
        state := Escaped(state);
      }
    }

    method CloseForceModal()
      requires Valid()
      modifies this
      ensures Valid() && state == ForceModalClosed(old(state))
    {
      state := ForceModalClosed(state);
    }

    method CloseArticleModal()
      requires Valid()
      modifies this
      ensures Valid() && state == ArticleModalClosed(old(state))
    {
      state := ArticleModalClosed(state);
    }

    method ToggleThought()
      requires Valid()
      modifies this
      ensures Valid() && state == ThoughtToggled(old(state))
    {
      state := ThoughtToggled(state);
    }

    method EditQuery(q: string)
      requires Valid()
      modifies this
      ensures Valid() && state == QueryEdited(old(state), q)
    {
      state := QueryEdited(state, q);
    }

    method SelectForce(key: DrivingForce)
      requires Valid()
      modifies this
      ensures Valid() && state == ForceSelected(old(state), key)
    {
      state := ForceSelected(state, key);
    }

    /**
     * `handleDownloadArticle`: nothing without a non-empty article; otherwise
     * a plain-text file of the article named after the report.
     */
    method DownloadArticle() returns (d: Option<Download>)
      ensures d.Some? <==> Truthy(state.articleResult)
      ensures d.Some? ==> d.value == Download(DownloadFileName(state), state.articleResult.value, "text/plain")
      ensures Valid() ==> (d.Some? <==> state.articleResult.Some?)
    {
      if !Truthy(state.articleResult) {
        return None;
      }
      d := Some(Download(DownloadFileName(state), state.articleResult.value, "text/plain"));
    }
  }
}
