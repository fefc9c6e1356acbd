/**
 * The request lifecycle of the movie-fetch hook, as values: which URL a
 * dispatch requests, which state-cell writes it performs, in which order,
 * and what the cells hold once it has settled.
 */
module FetchSpec {
  import opened Types

  const ApiBaseUrl := "https://api.themoviedb.org/3"
  const SearchPath := "/search/movie?query="
  const SortSuffix := "&sort_by=popularity.desc"
  const DiscoverPath := "/discover/movie?sort_by=popularity.desc"

  /** Fallback text of a logical failure whose body carries no `Error`. */
  const FetchFailedText := "Failed to fetch movies"
  /** Text shown for a body whose `total_results` is 0. */
  const NoMoviesText := "No movies found. Try a different search term."
  /** Text set by the `catch` block, whatever was thrown. */
  const RetryText := "Error fetching movies. Please try again later."

  /** `if (endpoint)`: an endpoint is in force only when present and non-empty. */
  predicate EndpointConfigured(endpoint: Option<string>) {
    endpoint.Some? && endpoint.value != ""
  }

  /**
   * The URL a dispatch for `query` requests. `encode` stands for
   * `encodeURIComponent`, which is not modelled.
   */
  function RequestUrl(endpoint: Option<string>, query: string, encode: string -> string): (url: string)
    ensures url != ""
    ensures !EndpointConfigured(endpoint) ==> ApiBaseUrl <= url
  {
    if EndpointConfigured(endpoint) then endpoint.value
    else if query != "" then ApiBaseUrl + SearchPath + encode(query) + SortSuffix
    else ApiBaseUrl + DiscoverPath
  }

  lemma MiddleOf(p: string, m: string, s: string)
    ensures (p + m + s)[|p|..|p + m + s| - |s|] == m
    ensures (p + m + s)[|p + m + s| - |s|..] == s
  {
  }

  /** The three shapes of request URL. */
  lemma RequestUrlCases(endpoint: Option<string>, query: string, encode: string -> string)
    ensures EndpointConfigured(endpoint) ==> RequestUrl(endpoint, query, encode) == endpoint.value
    ensures !EndpointConfigured(endpoint) && query != "" ==>
      var url := RequestUrl(endpoint, query, encode);
      && ApiBaseUrl + SearchPath <= url
      && url[|ApiBaseUrl + SearchPath|..|url| - |SortSuffix|] == encode(query)
      && url[|url| - |SortSuffix|..] == SortSuffix
    ensures !EndpointConfigured(endpoint) && query == "" ==>
      RequestUrl(endpoint, query, encode) == ApiBaseUrl + DiscoverPath
  {
    if !EndpointConfigured(endpoint) && query != "" {
      MiddleOf(ApiBaseUrl + SearchPath, encode(query), SortSuffix);
    }
  }

  /** In search mode two non-empty queries request the same URL only when they encode alike. */
  lemma SearchUrlDeterminesEncodedQuery(endpoint: Option<string>, q1: string, q2: string, encode: string -> string)
    requires !EndpointConfigured(endpoint) && q1 != "" && q2 != ""
    requires RequestUrl(endpoint, q1, encode) == RequestUrl(endpoint, q2, encode)
    ensures encode(q1) == encode(q2)
  {
    RequestUrlCases(endpoint, q1, encode);
    RequestUrlCases(endpoint, q2, encode);
  }

  /** In search mode a search request never coincides with the discover request. */
  lemma SearchIsNotDiscover(endpoint: Option<string>, query: string, encode: string -> string)
    requires !EndpointConfigured(endpoint) && query != ""
    ensures RequestUrl(endpoint, query, encode) != RequestUrl(endpoint, "", encode)
  {
    var search := RequestUrl(endpoint, query, encode);
    var discover := RequestUrl(endpoint, "", encode);
    var tail := SearchPath + encode(query) + SortSuffix;
    var at := |ApiBaseUrl| + 1;
    assert search == ApiBaseUrl + tail;
    assert search[at] == tail[1] == SearchPath[1] == 's';
    assert discover[at] == DiscoverPath[1] == 'd';
  }

  /**
   * What `fetch` and `response.json()` deliver. `NotOk` stands for a
   * rejected `fetch` as well as a response whose `ok` is false.
   */
  datatype HttpResponse =
    | NotOk
    | BadJson
    | Body(response: Option<string>, error: Option<string>, totalResults: Option<int>, results: Option<seq<Movie>>)

  /** One call of a state setter of the hook. */
  datatype CellWrite = SetLoading(loading: bool) | SetError(message: string) | SetList(movies: seq<Movie>)

  /** The three cells a dispatch writes. */
  datatype Cells = Cells(movieList: seq<Movie>, errorMessage: string, isLoading: bool)

  function Write(c: Cells, w: CellWrite): Cells {
    match w
    case SetLoading(b) => c.(isLoading := b)
    case SetError(m) => c.(errorMessage := m)
    case SetList(ms) => c.(movieList := ms)
  }

  /** The cells after the writes `ws`, applied in order, starting from `c`. */
  function Apply(c: Cells, ws: seq<CellWrite>): Cells
    decreases |ws|
  {
    if ws == [] then c else Apply(Write(c, ws[0]), ws[1..])
  }

  lemma {:induction false} ApplyAppend(c: Cells, a: seq<CellWrite>, b: seq<CellWrite>)
    ensures Apply(c, a + b) == Apply(Apply(c, a), b)
    decreases |a|
  {
    if a == [] {
      assert a + b == b;
    } else {
      assert (a + b)[1..] == a[1..] + b;
      ApplyAppend(Write(c, a[0]), a[1..], b);
    }
  }

  /** Writes that do not touch the loading flag leave it as it is. */
  lemma {:induction false} ApplyKeepsLoading(c: Cells, ws: seq<CellWrite>)
    requires forall i :: 0 <= i < |ws| ==> !ws[i].SetLoading?
    ensures Apply(c, ws).isLoading == c.isLoading
    decreases |ws|
  {
    if ws != [] {
      ApplyKeepsLoading(Write(c, ws[0]), ws[1..]);
    }
  }

  /** `data.Error || "Failed to fetch movies"`. */
  function LogicalErrorText(error: Option<string>): (text: string)
    ensures text != ""
    ensures error.Some? && error.value != "" ==> text == error.value
    ensures !(error.Some? && error.value != "") ==> text == FetchFailedText
  {
    if error.Some? && error.value != "" then error.value else FetchFailedText
  }

  /** Whether a response gets past both early returns to the results branch. */
  predicate ReachesResults(resp: HttpResponse) {
    resp.Body? && resp.response != Some("False") && resp.totalResults != Some(0)
  }

  /** The trend-store calls a dispatch makes: `updateSearchCount(query, data.results[0])` or none. */
  function TrendCalls(query: string, resp: HttpResponse): (calls: seq<(string, Movie)>)
    ensures |calls| <= 1
    ensures calls != [] ==> query != "" && calls[0].0 == query
  {
    if ReachesResults(resp) && query != "" && resp.results.Some? && |resp.results.value| > 0
    then [(query, resp.results.value[0])]
    else []
  }

  /**
   * The setter calls the `try` block makes before it returns or throws,
   * and whether it throws. A non-ok response and an unparsable body throw
   * at once; an absent `results` throws at `data.results.length` when the
   * query is non-empty; a failing trend-store call throws after the list
   * has been set.
   */
  function TryBlock(query: string, resp: HttpResponse, trendOk: bool): (t: (seq<CellWrite>, bool))
    ensures |t.0| <= 2
    ensures forall i :: 0 <= i < |t.0| ==> !t.0[i].SetLoading?
    ensures t.1 <==> var o := Classify(query, resp, trendOk);
      o.TransportFailure? || o.ResultsMissing? || o.TrendStoreFailure?
  {
    match resp
    case NotOk => ([], true)
    case BadJson => ([], true)
    case Body(response, error, total, results) =>
      if response == Some("False") then ([SetError(LogicalErrorText(error)), SetList([])], false)
      else if total == Some(0) then ([SetError(NoMoviesText), SetList([])], false)
      else
        var threw := query != "" && (results.None? || (|results.value| > 0 && !trendOk));
        ([SetList(results.GetOr([]))], threw)
  }

  /** Every setter call of one `fetchMovies(query)`, in order: dispatch, `try`, `catch`, `finally`. */
  function FetchWrites(query: string, resp: HttpResponse, trendOk: bool): (ws: seq<CellWrite>)
    ensures 3 <= |ws| <= 5
    ensures ws[0] == SetLoading(true) && ws[|ws| - 1] == SetLoading(false)
  {
    var (tryWrites, threw) := TryBlock(query, resp, trendOk);
    [SetLoading(true), SetError("")] + tryWrites + (if threw then [SetError(RetryText)] else []) + [SetLoading(false)]
  }

  /** How one dispatch ends. */
  datatype Outcome =
    | TransportFailure              // non-ok status, rejected fetch, unparsable body
    | LogicalFailure(message: string) // `Response === "False"`
    | NoResults                     // `total_results === 0`
    | Success(movies: seq<Movie>)
    | ResultsMissing                // `data.results.length` on an absent `results`
    | TrendStoreFailure(movies: seq<Movie>) // the trend-store call threw

  /** The outcome of one dispatch, read off the response and the trend-store result. */
  function Classify(query: string, resp: HttpResponse, trendOk: bool): (o: Outcome)
    ensures o.TransportFailure? <==> resp.NotOk? || resp.BadJson?
    ensures o.LogicalFailure? ==> o.message != ""
    ensures o.Success? || o.ResultsMissing? || o.TrendStoreFailure? ==> ReachesResults(resp)
    ensures o.ResultsMissing? || o.TrendStoreFailure? ==> query != ""
  {
    match resp
    case NotOk => TransportFailure
    case BadJson => TransportFailure
    case Body(response, error, total, results) =>
      if response == Some("False") then LogicalFailure(LogicalErrorText(error))
      else if total == Some(0) then NoResults
      else if results.None? then (if query == "" then Success([]) else ResultsMissing)
      else if query != "" && |results.value| > 0 && !trendOk then TrendStoreFailure(results.value)
      else Success(results.value)
  }

  /** The cells once a dispatch with outcome `o` has settled, from a list `prev` shown before it. */
  function Settled(prev: seq<Movie>, o: Outcome): (c: Cells)
    ensures !c.isLoading
    ensures o.TransportFailure? ==> c.movieList == prev
    ensures c.errorMessage == "" <==> o.Success? || (o.LogicalFailure? && o.message == "")
  {
    match o
    case TransportFailure => Cells(prev, RetryText, false)
    case LogicalFailure(m) => Cells([], m, false)
    case NoResults => Cells([], NoMoviesText, false)
    case Success(ms) => Cells(ms, "", false)
    case ResultsMissing => Cells([], RetryText, false)
    case TrendStoreFailure(ms) => Cells(ms, RetryText, false)
  }

  /** Applying a single setter call is that one write. */
  lemma ApplyOne(c: Cells, w: CellWrite)
    ensures Apply(c, [w]) == Write(c, w)
  {
    assert [w][1..] == [];
  }

  lemma ApplyTwo(c: Cells, w1: CellWrite, w2: CellWrite)
    ensures Apply(c, [w1, w2]) == Write(Write(c, w1), w2)
  {
    assert [w1, w2][1..] == [w2];
    ApplyOne(Write(c, w1), w2);
  }

  /** The cells after the writes of the `try` block, from the cells `c1` left by the dispatch. */
  lemma ApplyTryBlock(c1: Cells, query: string, resp: HttpResponse, trendOk: bool)
    ensures var (tryWrites, _) := TryBlock(query, resp, trendOk);
      Apply(c1, tryWrites) ==
        match resp
        case Body(response, error, total, results) =>
          if response == Some("False") then c1.(errorMessage := LogicalErrorText(error), movieList := [])
          else if total == Some(0) then c1.(errorMessage := NoMoviesText, movieList := [])
          else c1.(movieList := results.GetOr([]))
        case _ => c1
  {
    match resp
    case NotOk =>
    case BadJson =>
    case Body(response, error, total, results) =>
      if response == Some("False") {
        ApplyTwo(c1, SetError(LogicalErrorText(error)), SetList([]));
      } else if total == Some(0) {
        ApplyTwo(c1, SetError(NoMoviesText), SetList([]));
      } else {
        ApplyOne(c1, SetList(results.GetOr([])));
      }
  }

  /** The setter calls of a dispatch bring the cells to the state its outcome prescribes. */
  lemma FetchSettles(c: Cells, query: string, resp: HttpResponse, trendOk: bool)
    ensures Apply(c, FetchWrites(query, resp, trendOk)) == Settled(c.movieList, Classify(query, resp, trendOk))
  {
    var (tryWrites, threw) := TryBlock(query, resp, trendOk);
    var start := [SetLoading(true), SetError("")];
    var catchWrites := if threw then [SetError(RetryText)] else [];
    var ws := start + tryWrites + catchWrites + [SetLoading(false)];
    assert FetchWrites(query, resp, trendOk) == ws;
    ApplyAppend(c, start + tryWrites + catchWrites, [SetLoading(false)]);
    ApplyAppend(c, start + tryWrites, catchWrites);
    ApplyAppend(c, start, tryWrites);
    ApplyTwo(c, SetLoading(true), SetError(""));
    var c1 := Apply(c, start);
    ApplyTryBlock(c1, query, resp, trendOk);
    var c2 := Apply(c1, tryWrites);
    var c3 := Apply(c2, catchWrites);
    if threw {
      ApplyOne(c2, SetError(RetryText));
    }
    ApplyOne(c3, SetLoading(false));
  }

  /**
   * Every dispatch first raises the loading flag and clears the error, and
   * lowers the flag only in its last write (the `finally`).
   */
  lemma FetchWritesShape(query: string, resp: HttpResponse, trendOk: bool)
    ensures var ws := FetchWrites(query, resp, trendOk);
      && |ws| >= 3
      && ws[0] == SetLoading(true) && ws[1] == SetError("")
      && ws[|ws| - 1] == SetLoading(false)
      && forall i :: 1 <= i < |ws| - 1 ==> !ws[i].SetLoading?
  {
  }

  /** Between dispatch and its last write the loading flag is up, whatever the cells held before. */
  lemma LoadingUntilSettled(c: Cells, query: string, resp: HttpResponse, trendOk: bool, k: nat)
    requires 1 <= k < |FetchWrites(query, resp, trendOk)|
    ensures Apply(c, FetchWrites(query, resp, trendOk)[..k]).isLoading
  {
    var ws := FetchWrites(query, resp, trendOk);
    FetchWritesShape(query, resp, trendOk);
    assert ws[..k] == [ws[0]] + ws[1..k];
    ApplyAppend(c, [ws[0]], ws[1..k]);
    ApplyKeepsLoading(Apply(c, [ws[0]]), ws[1..k]);
  }

  /** Once settled, the loading flag is down on every path. */
  lemma SettledNotLoading(c: Cells, query: string, resp: HttpResponse, trendOk: bool)
    ensures !Apply(c, FetchWrites(query, resp, trendOk)).isLoading
  {
    FetchSettles(c, query, resp, trendOk);
  }

  /** A dispatch ends without an error message exactly when it succeeds. */
  lemma ErrorEmptyIffSuccess(c: Cells, query: string, resp: HttpResponse, trendOk: bool)
    ensures Apply(c, FetchWrites(query, resp, trendOk)).errorMessage == "" <==> Classify(query, resp, trendOk).Success?
  {
    FetchSettles(c, query, resp, trendOk);
  }

  /**
   * A transport failure surfaces the retry text and leaves the previous
   * list in place: the `catch` does not clear the list.
   */
  lemma TransportFailureKeepsList(c: Cells, query: string, resp: HttpResponse, trendOk: bool)
    requires resp.NotOk? || resp.BadJson?
    ensures Apply(c, FetchWrites(query, resp, trendOk)) == Cells(c.movieList, RetryText, false)
  {
    FetchSettles(c, query, resp, trendOk);
  }

  /** A logical failure wins over `total_results`, `results`, the query and the trend store. */
  lemma LogicalFailureWins(c: Cells, query: string, resp: HttpResponse, trendOk: bool)
    requires resp.Body? && resp.response == Some("False")
    ensures Apply(c, FetchWrites(query, resp, trendOk)) == Cells([], LogicalErrorText(resp.error), false)
    ensures TrendCalls(query, resp) == []
  {
    FetchSettles(c, query, resp, trendOk);
  }

  /** Otherwise `total_results === 0` empties the list with the "no movies" text. */
  lemma ZeroResultsEmptiesList(c: Cells, query: string, resp: HttpResponse, trendOk: bool)
    requires resp.Body? && resp.response != Some("False") && resp.totalResults == Some(0)
    ensures Apply(c, FetchWrites(query, resp, trendOk)) == Cells([], NoMoviesText, false)
    ensures TrendCalls(query, resp) == []
  {
    FetchSettles(c, query, resp, trendOk);
  }

  /**
   * Past the early returns the list becomes `results` (or empty when absent),
   * and the error stays empty unless `results` is absent for a non-empty
   * query or the trend-store call fails.
   */
  lemma ResultsBranch(c: Cells, query: string, resp: HttpResponse, trendOk: bool)
    requires ReachesResults(resp)
    ensures var after := Apply(c, FetchWrites(query, resp, trendOk));
      && after.movieList == resp.results.GetOr([])
      && (after.errorMessage == "" <==>
           (query == "" || (resp.results.Some? && (resp.results.value == [] || trendOk))))
      && (after.errorMessage != "" ==> after.errorMessage == RetryText)
  {
    FetchSettles(c, query, resp, trendOk);
  }

  /**
   * A failing trend-store call leaves the populated result list next to a
   * non-empty error message.
   */
  lemma TrendFailureKeepsList(c: Cells, query: string, resp: HttpResponse)
    requires ReachesResults(resp) && query != ""
    requires resp.results.Some? && resp.results.value != []
    ensures var after := Apply(c, FetchWrites(query, resp, false));
      after.movieList == resp.results.value && after.errorMessage == RetryText
  {
    FetchSettles(c, query, resp, false);
  }

  /**
   * The trend store is called at most once, with the query and the first
   * result, exactly when the query is non-empty and the results branch
   * holds a non-empty `results`; whether that call fails does not matter.
   * In particular the discover listing (empty query) never reports.
   */
  lemma TrendCallIff(query: string, resp: HttpResponse)
    ensures |TrendCalls(query, resp)| <= 1
    ensures TrendCalls(query, resp) != [] <==>
      ReachesResults(resp) && query != "" && resp.results.Some? && resp.results.value != []
    ensures TrendCalls(query, resp) != [] ==> TrendCalls(query, resp)[0] == (query, resp.results.value[0])
  {
  }
}
