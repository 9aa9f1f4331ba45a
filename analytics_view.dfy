/** The state of the dashboard component (`src/components/Analytics.js`)
    around one fetch of the analytics snapshot, and what it renders from
    that state. The fetch itself is a parameter: it either brings a snapshot
    or fails with an optional error text. The clock reading that becomes
    `lastUpdated` is a parameter as well. */
module AnalyticsScreen {
  import opened Common
  import opened Insights

  const LoadFailedMessage: string := "Failed to load analytics"

  /** What the component renders, before the dashboard's own sections. */
  datatype Screen = Loading | ErrorShown(message: string) | NoData | Dashboard(data: Snapshot)

  /** Loading wins over an error, an error over missing data; a non-empty
      error text is what counts as an error. */
  function ScreenOf(loading: bool, error: string, analytics: Option<Snapshot>): (s: Screen)
    ensures s.Loading? <==> loading
    ensures s.ErrorShown? <==> !loading && error != ""
    ensures s.ErrorShown? ==> s.message == error
    ensures s.NoData? <==> !loading && error == "" && analytics.None?
    ensures s.Dashboard? <==> !loading && error == "" && analytics.Some?
    ensures s.Dashboard? ==> s.data == analytics.value
  {
    if loading then Loading
    else if error != "" then ErrorShown(error)
    else if analytics.None? then NoData
    else Dashboard(analytics.value)
  }

  /** `err.error || 'Failed to load analytics'` */
  function FailureText(err: Option<string>): (t: string)
    ensures t != ""
    ensures err.Some? && err.value != "" ==> t == err.value
    ensures err.None? || err.value == "" ==> t == LoadFailedMessage
  {
    if err.Some? && err.value != "" then err.value else LoadFailedMessage
  }

  /** How a fetch ends: with the server's snapshot, or with a failure. */
  datatype FetchResult = Received(data: Snapshot) | Failed(err: Option<string>)

  class AnalyticsView {
    var analytics: Option<Snapshot>
    var loading: bool
    var error: string
    var refreshing: bool
    var lastUpdated: Option<int>

    /** The initial state: loading, nothing fetched yet. */
    constructor()
      ensures analytics == None && loading && error == "" && !refreshing && lastUpdated == None
      ensures Current() == Loading
    {
      analytics := None;
      loading := true;
      error := "";
      refreshing := false;
      lastUpdated := None;
    }

    function Current(): Screen
      reads this
    {
      ScreenOf(loading, error, analytics)
    }

    /** The start of `fetchAnalytics`: a refresh raises `refreshing` and
        keeps what is on screen; a first load raises `loading`. */
    method StartFetch(isRefresh: bool)
      modifies this
      ensures isRefresh ==> refreshing && loading == old(loading)
      ensures !isRefresh ==> loading && refreshing == old(refreshing)
      ensures analytics == old(analytics) && error == old(error) && lastUpdated == old(lastUpdated)
      ensures isRefresh ==> Current() == old(Current())
      ensures !isRefresh ==> Current() == Loading
    {
      if isRefresh {
        refreshing := true;
      } else {
        loading := true;
      }
    }

    /** The snapshot arrived: it replaces the previous one, the error is
        cleared, the time is recorded and both busy flags drop. */
    method FetchSucceeded(data: Snapshot, now: int)
      modifies this
      ensures analytics == Some(data) && error == "" && lastUpdated == Some(now)
      ensures !loading && !refreshing
      ensures Current() == Dashboard(data)
    {
      analytics := Some(data);
      error := "";
      lastUpdated := Some(now);
      loading := false;
      refreshing := false;
    }

    /** The fetch failed: the error is shown, the previous snapshot and its
        time are kept, and both busy flags drop. */
    method FetchFailed(err: Option<string>)
      modifies this
      ensures error == FailureText(err)
      ensures analytics == old(analytics) && lastUpdated == old(lastUpdated)
      ensures !loading && !refreshing
      ensures Current() == ErrorShown(FailureText(err))
    {
      error := FailureText(err);
      loading := false;
      refreshing := false;
    }

    /** One whole `fetchAnalytics(isRefresh)`, run to its end. */
    method Fetch(isRefresh: bool, result: FetchResult, now: int)
      modifies this
      ensures !loading && !refreshing
      ensures result.Received? ==>
        analytics == Some(result.data) && error == "" && lastUpdated == Some(now)
      ensures result.Failed? ==>
        && analytics == old(analytics) && lastUpdated == old(lastUpdated)
        && error == FailureText(result.err)
      ensures Current() == (if result.Received? then Dashboard(result.data) else ErrorShown(FailureText(result.err)))
    {
      StartFetch(isRefresh);
      match result
      case Received(data) => FetchSucceeded(data, now);
      case Failed(err) => FetchFailed(err);
    }
  }

  /** A finished fetch shows the dashboard or the error, never the loading
      text and never the no-data note, whatever snapshot was kept before. */
  lemma FinishedScreen(kept: Option<Snapshot>, result: FetchResult)
    ensures var s := if result.Received? then ScreenOf(false, "", Some(result.data))
                     else ScreenOf(false, FailureText(result.err), kept);
      && !s.Loading? && !s.NoData?
      && (s.ErrorShown? <==> result.Failed?)
  {
  }
}
