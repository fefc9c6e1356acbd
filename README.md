# Movie discovery page — request lifecycle and view derivations in Dafny

This project models the core of a client-side movie discovery page. The
core is the `useMovies` data-fetch hook. It holds five state cells:
`searchTerm`, `debouncedSearchTerm`, `movieList`, `errorMessage` and
`isLoading`. It debounces the search term, picks a request URL, classifies
the movie source's response, updates the cells, and reports successful
searches to a trend store. Three components turn that state into what the
page shows:
- the movies section: truncation, carousel animation, spinner/alert/list priority;
- the movie card: poster, rating and year fallbacks;
- the trending list: ranks and the null-poster sentinel.

Files:
- `types.dfy` (`Types`): the `Movie` and `TrendingMovie` records and `Option`.
- `fetch_spec.dfy` (`FetchSpec`): the hook's logic as values.
  - `RequestUrl` picks the request URL.
  - `HttpResponse` is the abstract response: `NotOk`, `BadJson`, or `Body` with the optional `Response`, `Error`, `total_results` and `results` fields.
  - `FetchWrites` lists the setter calls of one `fetchMovies`, in the order the `try`/`catch`/`finally` makes them.
  - `Apply` folds setter calls over the cells.
  - `Classify`/`Settled` give the declarative outcome (transport failure, logical failure, no results, success, missing `results`, trend-store failure) and the cells it leaves.
  - `TrendCalls` gives the trend-store report, if any.
- `movies_hook.dfy` (`UseMoviesHook`): class `MoviesHook`.
  - Its fields are the five cells.
  - Ghost logs record every setter call, every requested URL and every `(query, movie)` reported to the trend store.
  - `DebounceFires` is the elapsed debounce timer; `FetchMovies` is `fetchMovies`; `RunEffect` is the effect that dispatches it.
  - `SearchScenario` walks through a search for "batman".
- `movie_card.dfy`, `movies_section.dfy`, `trending_section.dfy`: the pure derivations of the three components.

JavaScript truthiness is written out:
- an empty endpoint string means "no endpoint";
- an empty query takes the discover URL;
- a `limit` of 0 means "no limit";
- a `vote_average` of 0 reads "No rating".

`slice(0, limit)` follows JavaScript for a negative limit: it drops that many movies from the end.

Three behaviours of the hook's code are easy to misread, and the model states each of them as written:
- A failed request does not clear the list. The `catch` only sets the retry text, so the list shown before the request stays (`TransportFailureKeepsList`).
- A trend-store failure is visible. A failing `updateSearchCount` lands in the same `catch`, so the retry text appears next to a populated list (`TrendFailureKeepsList`).
- A body that passes the early returns but has no `results` reaches the `catch` through `data.results.length` when the query is non-empty (`ResultsBranch`). The list has already been set to empty at that point.

## Model

| member | source | states |
|---|---|---|
| FetchSpec.RequestUrl | src/hooks/useMovies.ts:38-50 | The request URL is never empty, and without a configured endpoint it always lies under the movie API base URL |
| FetchSpec.RequestUrlCases | src/hooks/useMovies.ts:40-50 | With a non-empty endpoint the URL is that endpoint whatever the query. Otherwise a non-empty query gives the search URL around the encoded query, and an empty query gives the popularity-sorted discover URL |
| FetchSpec.SearchUrlDeterminesEncodedQuery | src/hooks/useMovies.ts:45-48 | In search mode the request URL determines the encoded query: equal URLs for two non-empty queries mean equal encodings |
| FetchSpec.SearchIsNotDiscover | src/hooks/useMovies.ts:45-49 | In search mode no non-empty query requests the discover URL |
| FetchSpec.LogicalErrorText | src/hooks/useMovies.ts:61 | The logical-failure message is `data.Error` when that is non-empty, otherwise "Failed to fetch movies"; it is never empty |
| FetchSpec.TrendCalls | src/hooks/useMovies.ts:75-77 | At most one trend-store report per dispatch, and only for a non-empty query, which it carries |
| FetchSpec.TryBlock | src/hooks/useMovies.ts:37-77 | The `try` block makes at most two setter calls and never touches the loading flag. It throws exactly when the dispatch's outcome is a transport failure, missing `results` or a trend-store failure |
| FetchSpec.FetchWrites | src/hooks/useMovies.ts:33-84 | One dispatch makes three to five setter calls. The first turns loading on and the last, the `finally`, turns it off |
| FetchSpec.Classify | src/hooks/useMovies.ts:52-80 | The outcome is a transport failure exactly for a non-ok or unparsable response. A logical-failure message is never empty. Success, missing `results` and trend-store failure all require passing both early returns, and the last two a non-empty query |
| FetchSpec.Settled | src/hooks/useMovies.ts:54-83 | A settled dispatch never leaves loading on. A transport failure keeps the previous list. The error ends empty exactly on success, or on a logical failure with an empty message, which `Classify` never produces |
| FetchSpec.FetchSettles | src/hooks/useMovies.ts:33-84 | Replaying the setter calls of one dispatch leaves the cells in the state its outcome prescribes. Transport failure keeps the list with the retry text. Logical failure and zero results empty the list with their texts. Success shows `results` with no error. Missing `results` and trend-store failure show the retry text. Loading is off in every case |
| FetchSpec.FetchWritesShape | src/hooks/useMovies.ts:34-83 | Every dispatch first sets loading on and clears the error, and its only write that turns loading off is the last one, the `finally` |
| FetchSpec.LoadingUntilSettled | src/hooks/useMovies.ts:34-83 | After every prefix of a dispatch's setter calls, from the first up to but not including the last, the loading flag is on, whatever the cells held before |
| FetchSpec.SettledNotLoading | src/hooks/useMovies.ts:81-83 | On every exit path (early return, success, catch) the loading flag ends off |
| FetchSpec.ErrorEmptyIffSuccess | src/hooks/useMovies.ts:35-80 | A dispatch ends with an empty error message if and only if it succeeded |
| FetchSpec.TransportFailureKeepsList | src/hooks/useMovies.ts:54-80 | A non-ok response or an unparsable body sets the retry text and leaves the previous movie list unchanged. The thrown "Failed to fetch movies" never reaches the cells |
| FetchSpec.LogicalFailureWins | src/hooks/useMovies.ts:60-64 | `Response === "False"` empties the list and sets the logical-failure message, whatever `total_results`, `results`, the query or the trend store hold, and makes no trend-store call |
| FetchSpec.ZeroResultsEmptiesList | src/hooks/useMovies.ts:66-70 | Otherwise `total_results === 0` empties the list with "No movies found. Try a different search term." and makes no trend-store call |
| FetchSpec.ResultsBranch | src/hooks/useMovies.ts:72-80 | Past both early returns the list becomes `results`, or empty when absent. The error stays empty exactly when the query is empty, or `results` is present and either empty or its trend-store call succeeds. Any error there is the retry text |
| FetchSpec.TrendFailureKeepsList | src/hooks/useMovies.ts:73-80 | A failing trend-store call leaves the populated result list next to the retry text |
| FetchSpec.TrendCallIff | src/hooks/useMovies.ts:75-77 | At most one trend-store call is made. It is made exactly when the query is non-empty and the response reaches the results branch with a non-empty `results`, and it carries the query and the first result. So a dispatch with the empty query never calls the trend store |
| UseMoviesHook.MoviesHook.constructor | src/hooks/useMovies.ts:17-22 | All five cells start empty or false, with nothing requested or reported yet |
| UseMoviesHook.MoviesHook.SetSearchTerm | src/hooks/useMovies.ts:19 | The setter replaces the search term and touches nothing else |
| UseMoviesHook.MoviesHook.DebounceFires | src/hooks/useMovies.ts:25-31 | When the debounce fires, the search term is copied into the debounced term only when no endpoint is configured. It reports whether the debounced term changed, which is what re-runs the effect. In endpoint mode the debounced term stays empty |
| UseMoviesHook.MoviesHook.SetIsLoading | src/hooks/useMovies.ts:22 | The setter replaces the loading flag and logs the call. The cells stay the fold of every setter call made so far |
| UseMoviesHook.MoviesHook.SetErrorMessage | src/hooks/useMovies.ts:21 | The setter replaces the error message and logs the call. The cells stay the fold of every setter call made so far |
| UseMoviesHook.MoviesHook.SetMovieList | src/hooks/useMovies.ts:20 | The setter replaces the movie list and logs the call. The cells stay the fold of every setter call made so far |
| UseMoviesHook.MoviesHook.TryFetch | src/hooks/useMovies.ts:37-77 | The `try` block requests the chosen URL once. It makes exactly the setter calls of `TryBlock` and reports exactly the trend-store calls of `TrendCalls`. It leaves through the `catch` exactly when the response is not ok or unparsable, when `results` is absent for a non-empty query, or when the trend-store call fails |
| UseMoviesHook.MoviesHook.FetchMovies | src/hooks/useMovies.ts:33-84 | Makes exactly the setter calls of `FetchWrites`, in order. It leaves the cells as the outcome prescribes, requests the chosen URL once, and appends exactly the trend-store calls of `TrendCalls` to the log. It keeps the invariant that the cells are the fold of all setter calls made so far |
| UseMoviesHook.MoviesHook.RunEffect | src/hooks/useMovies.ts:86-94 | The effect fetches for the debounced term. In endpoint mode it requests the endpoint itself and never calls the trend store |
| MovieCard.PosterSrc | src/components/MovieCard.tsx:13-17 | A non-empty `poster_path` is appended to "https://image.tmdb.org/t/p/w500/" and can be read back from the result. An empty one gives the "/no-movie-png" placeholder |
| MovieCard.PlaceholderIffNoPoster | src/components/MovieCard.tsx:14-16 | The image source is the "/no-movie-png" placeholder exactly when `poster_path` is empty. Otherwise it lies under "https://image.tmdb.org/t/p/w500/" |
| MovieCard.PosterSrcInjective | src/components/MovieCard.tsx:14-15 | Distinct non-empty poster paths give distinct image sources |
| MovieCard.BeforeFirst | src/components/MovieCard.tsx:29 | `split("-")[0]` is a prefix of the text that contains no "-" and is followed by a "-" unless it is the whole text |
| MovieCard.BeforeFirstUnique | src/components/MovieCard.tsx:29 | Those three properties determine `split("-")[0]` uniquely |
| MovieCard.YearText | src/components/MovieCard.tsx:29 | An empty release date reads "No data". Otherwise the year is the part before the first "-", or the whole date when it has none |
| MovieCard.YearOfIsoDate | src/components/MovieCard.tsx:29 | "2008-07-16" displays the year "2008" |
| MovieCard.RatingOf | src/components/MovieCard.tsx:25 | A zero rating reads "No rating"; any other takes the one-decimal branch with that value |
| MovieCard.CardOf | src/components/MovieCard.tsx:12-29 | The image alt text and the heading both equal the movie's title. The image source is `PosterSrc` of the poster path, the rating is `RatingOf` the vote average, and the year is `YearText` of the release date |
| MoviesSection.SliceEnd | src/components/MoviesSection.tsx:25 | The end `slice` stops at never exceeds the list's length |
| MoviesSection.DisplayMovies | src/components/MoviesSection.tsx:25 | The displayed movies are always a prefix of the list. Without a truthy limit they are the whole list. A positive limit keeps `min(limit, n)` movies; a negative one keeps `max(n + limit, 0)` |
| MoviesSection.CarouselEnabled | src/components/MoviesSection.tsx:29 | The animation is only ever enabled with at least one displayed movie and nothing loading |
| MoviesSection.CarouselEnabledIff | src/components/MoviesSection.tsx:28-29 | The carousel animation is enabled if and only if the limit is truthy, nothing is loading, there is no error, and the limit leaves at least one movie |
| MoviesSection.LowerAscii | src/components/MoviesSection.tsx:43 | The lower-cased title has the same length, contains no upper-case ASCII letter, and changes only the upper-case ASCII letters, each to its lower-case form |
| MoviesSection.CardsOf | src/components/MoviesSection.tsx:52-54 | One card per movie, in list order. Each is keyed by its movie's id and shows exactly that movie's card |
| MoviesSection.Render | src/components/MoviesSection.tsx:34-65 | The heading is the title. The spinner shows exactly while loading. The animation is enabled only when the body is a carousel |
| MoviesSection.ViewPriority | src/components/MoviesSection.tsx:42-49 | The spinner shows exactly while loading. An alert with the error text shows exactly when not loading and the error is non-empty. The body is blank exactly when neither holds and the list is empty |
| MoviesSection.ShownMovies | src/components/MoviesSection.tsx:49-65 | With movies and no error or loading, the list view appears exactly without a truthy limit, and the carousel exactly with one. The body's cards are exactly the cards of the displayed movies, in list order and keyed by movie id |
| MoviesSection.AnimatedIffNonEmptyCarousel | src/components/MoviesSection.tsx:25-65 | The animation is enabled exactly when a carousel with at least one card is rendered |
| MoviesSection.TitleAndSpinnerLabel | src/components/MoviesSection.tsx:21-43 | The heading is the title, "Latest Movies" by default. The spinner label is "Loading " followed by the lower-cased title |
| TrendingSection.PosterSrc | src/components/TrendingSection.tsx:41-45 | The sentinel "https://image.tmdb.org/t/p/w500null" never reaches an image. It becomes "no-movie.png", and every other URL passes through unchanged |
| TrendingSection.AltText | src/components/TrendingSection.tsx:46 | The alt text starts with "Movie poster for " and continues with the document's `movie_title` when that field is present |
| TrendingSection.AltTextIgnoresTitle | src/components/TrendingSection.tsx:46 | The alt text depends on the document's `movie_title` and not on its typed `title`. Without that field it reads "Movie poster for undefined" |
| TrendingSection.Render | src/components/TrendingSection.tsx:12-37 | An empty list renders nothing; otherwise there is one entry per trending movie |
| TrendingSection.EntriesInOrder | src/components/TrendingSection.tsx:27-46 | The entry at position i is keyed by the i-th movie's `$id` and ranked i + 1. Its image is that movie's `poster_url` after the sentinel swap, so never the sentinel, and its alt text is that movie's |
| TrendingSection.RanksRunOneToN | src/components/TrendingSection.tsx:27-37 | Ranks start at 1, end at n and strictly increase along the list |

## Left out

- Network I/O, HTTP status codes, JSON parsing and the bearer-token header. The response is the abstract `HttpResponse`. A rejected `fetch` counts as `NotOk`. A `null` JSON body, on which `data.Response` throws, is treated like `BadJson`. Any other JSON body that is not an object (a number, string, boolean or array) reads like `Body(None, None, None, None)`.
- JSON fields of unexpected types. `Response`, `Error`, `total_results` and `results` are modelled as optional string, string, integer and movie list. A truthy `Error` that is not a string is not modelled.
- `encodeURIComponent`: the function parameter `encode`.
- The trend store module (`updateSearchCount`, `getTrendingMovies`) is not part of this model. `updateSearchCount` is a logged call whose success is the `trendOk` parameter. `src/hooks/useTrendingMovies.ts` is a thin wrapper over `getTrendingMovies` and is left out with it.
- The 500 ms debounce timer: `DebounceFires` is the event of the timer elapsing. Restarting the timer on every keystroke is not modelled.
- Overlapping in-flight requests and the last-resolved-wins race: each `fetchMovies` runs atomically. Between dispatches the model keeps `isLoading` false.
- A change of the `endpoint` prop after mount: the endpoint is fixed per hook instance.
- `console.error` diagnostics.
- The GSAP animation hooks (`useCarouselAnimation`, `useTrendingAnimation`, `useHeaderAnimation`). They are animation-engine configuration, DOM listeners and floating-point timeline arithmetic. Only the boolean that enables the carousel is modelled.
- `vote_average.toFixed(1)` float formatting: the `OneDecimal` branch carries the value unformatted.
- `App.tsx` composition, plugin registration, `Header.tsx`, all markup, CSS classes, `lazy` and `Suspense`.
- RatingOf: a `NaN` average, which is also falsy, is not modelled, because ratings are real numbers.
- DisplayMovies: a non-integer or `NaN` limit is not modelled, because the limit is an integer.
- LowerAscii: covers only ASCII letters, not the full Unicode case mapping of `toLowerCase`.
