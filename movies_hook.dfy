/**
 * The movie-fetch hook as an object: five state cells, a discrete
 * debounce step, the fetch routine and the effect that dispatches it.
 * The network response and the outcome of the trend-store call are
 * parameters; what the hook requested and reported is kept in ghost logs.
 */
module UseMoviesHook {
  import opened Types
  import opened FetchSpec

  /** The cells as `useState` initialises them. */
  const Initial := Cells([], "", false)

  class MoviesHook {
    /** The optional fixed listing endpoint. */
    const endpoint: Option<string>
    /** Stands for `encodeURIComponent`. */
    const encode: string -> string

    var searchTerm: string
    var debouncedSearchTerm: string
    var movieList: seq<Movie>
    var errorMessage: string
    var isLoading: bool

    /** Every setter call made on the three result cells, in order. */
    ghost var writes: seq<CellWrite>
    /** Every URL requested from the movie source, in order. */
    ghost var requests: seq<string>
    /** Every `(query, movie)` reported to the trend store, in order. */
    ghost var trendLog: seq<(string, Movie)>

    /**
     * Between events no request is in flight, and in endpoint mode the
     * debounced term never leaves its initial empty value.
     */
    ghost predicate Valid()
      reads this
    {
      && Folded()
      && !isLoading
      && (EndpointConfigured(endpoint) ==> debouncedSearchTerm == "")
    }

    /** The cells hold what the setter calls made so far leave in the initial cells. */
    ghost predicate Folded()
      reads this
    {
      CellsNow() == Apply(Initial, writes)
    }

    function CellsNow(): Cells
      reads this
    {
      Cells(movieList, errorMessage, isLoading)
    }

    constructor (endpoint: Option<string>, encode: string -> string)
      ensures Valid()
      ensures this.endpoint == endpoint && this.encode == encode
      ensures searchTerm == "" && debouncedSearchTerm == ""
      ensures movieList == [] && errorMessage == "" && !isLoading
      ensures writes == [] && requests == [] && trendLog == []
    {
      this.endpoint := endpoint;
      this.encode := encode;
      searchTerm := "";
      debouncedSearchTerm := "";
      movieList := [];
      errorMessage := "";
      isLoading := false;
      writes := [];
      requests := [];
      trendLog := [];
    }

    /** `setSearchTerm`, as the search box calls it. */
    method SetSearchTerm(term: string)
      requires Valid()
      modifies this`searchTerm
      ensures Valid()
      ensures searchTerm == term
    {
      searchTerm := term;
    }

    /**
     * The debounce delay has elapsed: without an endpoint the search term
     * is copied into the debounced term. The result says whether the
     * debounced term changed, which is what re-runs the effect.
     */
    method DebounceFires() returns (effectDue: bool)
      requires Valid()
      modifies this`debouncedSearchTerm
      ensures Valid()
      ensures EndpointConfigured(endpoint) ==> debouncedSearchTerm == old(debouncedSearchTerm)
      ensures !EndpointConfigured(endpoint) ==> debouncedSearchTerm == searchTerm
      ensures effectDue <==> debouncedSearchTerm != old(debouncedSearchTerm)
    {
      var before := debouncedSearchTerm;
      if !EndpointConfigured(endpoint) {
        debouncedSearchTerm := searchTerm;
      }
      effectDue := debouncedSearchTerm != before;
    }

    method SetIsLoading(b: bool)
      requires Folded()
      modifies this`isLoading, this`writes
      ensures Folded()
      ensures isLoading == b
      ensures writes == old(writes) + [SetLoading(b)]
    {
      isLoading := b;
      ApplyAppend(Initial, writes, [SetLoading(b)]);
      ApplyOne(Apply(Initial, writes), SetLoading(b));
      writes := writes + [SetLoading(b)];
    }

    method SetErrorMessage(m: string)
      requires Folded()
      modifies this`errorMessage, this`writes
      ensures Folded()
      ensures errorMessage == m
      ensures writes == old(writes) + [SetError(m)]
    {
      errorMessage := m;
      ApplyAppend(Initial, writes, [SetError(m)]);
      ApplyOne(Apply(Initial, writes), SetError(m));
      writes := writes + [SetError(m)];
    }

    method SetMovieList(ms: seq<Movie>)
      requires Folded()
      modifies this`movieList, this`writes
      ensures Folded()
      ensures movieList == ms
      ensures writes == old(writes) + [SetList(ms)]
    {
      movieList := ms;
      ApplyAppend(Initial, writes, [SetList(ms)]);
      ApplyOne(Apply(Initial, writes), SetList(ms));
      writes := writes + [SetList(ms)];
    }

    /**
     * The `try` block of `fetchMovies(query)`: request the chosen URL,
     * classify the response, set the cells, report to the trend store.
     * `threw` says whether it left through the `catch`.
     */
    method TryFetch(query: string, resp: HttpResponse, trendOk: bool) returns (threw: bool)
      requires Folded()
      modifies this`movieList, this`errorMessage, this`writes, this`requests, this`trendLog
      ensures Folded()
      ensures writes == old(writes) + TryBlock(query, resp, trendOk).0
      ensures threw == TryBlock(query, resp, trendOk).1
      ensures requests == old(requests) + [RequestUrl(endpoint, query, encode)]
      ensures trendLog == old(trendLog) + TrendCalls(query, resp)
    {
      var finalEndpoint := RequestUrl(endpoint, query, encode);
      requests := requests + [finalEndpoint];

      threw := false;
      match resp {
        case NotOk =>
          threw := true;
        case BadJson =>
          threw := true;
        case Body(response, error, total, results) =>
          if response == Some("False") {
            SetErrorMessage(LogicalErrorText(error));
            SetMovieList([]);
          } else if total == Some(0) {
            SetErrorMessage(NoMoviesText);
            SetMovieList([]);
          } else {
            SetMovieList(results.GetOr([]));
            if query != "" {
              if results.None? {
                threw := true;
              } else if |results.value| > 0 {
                trendLog := trendLog + [(query, results.value[0])];
                threw := !trendOk;
              }
            }
          }
      }
    }

    /**
     * `fetchMovies(query)` against the response `resp`; `trendOk` says
     * whether the trend-store call, if made, succeeds. The setter calls
     * are exactly those of FetchWrites, and the cells end as the outcome
     * of the dispatch prescribes.
     */
    method FetchMovies(query: string, resp: HttpResponse, trendOk: bool)
      requires Valid()
      modifies this`movieList, this`errorMessage, this`isLoading, this`writes, this`requests, this`trendLog
      ensures Valid()
      ensures writes == old(writes) + FetchWrites(query, resp, trendOk)
      ensures CellsNow() == Apply(old(CellsNow()), FetchWrites(query, resp, trendOk))
      ensures CellsNow() == Settled(old(movieList), Classify(query, resp, trendOk))
      ensures requests == old(requests) + [RequestUrl(endpoint, query, encode)]
      ensures trendLog == old(trendLog) + TrendCalls(query, resp)
    {
      ghost var before := CellsNow();
      ghost var written := writes;
      SetIsLoading(true);
      SetErrorMessage("");
      ghost var dispatched := writes;
      var threw := TryFetch(query, resp, trendOk);
      ghost var tried := writes;
      if threw {
        SetErrorMessage(RetryText);
      }
      SetIsLoading(false);
      FetchWritesSplit(written, writes, dispatched, tried, query, resp, trendOk, threw);
      ApplyAppend(Initial, written, FetchWrites(query, resp, trendOk));
      FetchSettles(before, query, resp, trendOk);
    }

    /**
     * The effect: with an endpoint, `fetchMovies()` with the empty query;
     * otherwise `fetchMovies(debouncedSearchTerm)`.
     */
    method RunEffect(resp: HttpResponse, trendOk: bool)
      requires Valid()
      modifies this`movieList, this`errorMessage, this`isLoading, this`writes, this`requests, this`trendLog
      ensures Valid()
      ensures CellsNow() == Settled(old(movieList), Classify(debouncedSearchTerm, resp, trendOk))
      ensures requests == old(requests) + [RequestUrl(endpoint, debouncedSearchTerm, encode)]
      ensures trendLog == old(trendLog) + TrendCalls(debouncedSearchTerm, resp)
      ensures EndpointConfigured(endpoint) ==>
        requests == old(requests) + [endpoint.value] && trendLog == old(trendLog)
    {
      if EndpointConfigured(endpoint) {
        FetchMovies("", resp, trendOk);
      } else {
        FetchMovies(debouncedSearchTerm, resp, trendOk);
      }
    }
  }

  /** Reassembles the setter calls of one dispatch from its three stages. */
  lemma FetchWritesSplit(written: seq<CellWrite>, final: seq<CellWrite>, dispatched: seq<CellWrite>,
                         tried: seq<CellWrite>, query: string, resp: HttpResponse, trendOk: bool, threw: bool)
    requires dispatched == written + [SetLoading(true), SetError("")]
    requires tried == dispatched + TryBlock(query, resp, trendOk).0
    requires threw == TryBlock(query, resp, trendOk).1
    requires final == tried + (if threw then [SetError(RetryText)] else []) + [SetLoading(false)]
    ensures final == written + FetchWrites(query, resp, trendOk)
  {
  }

  /**
   * The search walk-through: mount with the discover listing, type
   * "batman", let the debounce fire, and receive two results.
   */
  method SearchScenario(encode: string -> string, popular: seq<Movie>, first: Movie, second: Movie)
  {
    var hook := new MoviesHook(None, encode);
    hook.RunEffect(Body(None, None, Some(|popular|), Some(popular)), true);
    assert hook.requests == [ApiBaseUrl + DiscoverPath];
    assert hook.trendLog == [];

    hook.SetSearchTerm("batman");
    var due := hook.DebounceFires();
    assert due;
    hook.RunEffect(Body(None, None, Some(2), Some([first, second])), true);
    assert hook.movieList == [first, second];
    assert hook.errorMessage == "" && !hook.isLoading;
    assert hook.trendLog == [("batman", first)];
    assert |hook.requests| == 2;
  }
}
