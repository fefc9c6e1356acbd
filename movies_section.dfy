/**
 * What a movies section shows: which movies, whether the carousel
 * animation runs, and which of spinner, alert, list or carousel wins.
 */
module MoviesSection {
  import opened Types
  import MovieCard

  const DefaultTitle := "Latest Movies"

  /** The props a section receives. */
  datatype Props = Props(
    movieList: seq<Movie>,
    isLoading: bool,
    errorMessage: string,
    title: Option<string>,
    limit: Option<int>)

  /** `limit` is truthy: present and non-zero. */
  predicate Truthy(limit: Option<int>) {
    limit.Some? && limit.value != 0
  }

  function Min(a: int, b: int): int { if a <= b then a else b }
  function Max(a: int, b: int): int { if a <= b then b else a }

  /** Where `slice(0, end)` stops on a list of length `len`: a negative end counts from the back. */
  function SliceEnd(len: nat, end: int): (k: nat)
    ensures k <= len
  {
    if end < 0 then (if len + end < 0 then 0 else len + end)
    else if end < len then end
    else len
  }

  /** `limit ? movieList.slice(0, limit) : movieList`. */
  function DisplayMovies(movieList: seq<Movie>, limit: Option<int>): (shown: seq<Movie>)
    ensures shown <= movieList
    ensures !Truthy(limit) ==> shown == movieList
    ensures Truthy(limit) && limit.value > 0 ==> |shown| == Min(limit.value, |movieList|)
    ensures Truthy(limit) && limit.value < 0 ==> |shown| == Max(|movieList| + limit.value, 0)
  {
    if Truthy(limit) then movieList[..SliceEnd(|movieList|, limit.value)] else movieList
  }

  /** The condition handed to the carousel animation. */
  predicate CarouselEnabled(limit: Option<int>, displayMovies: seq<Movie>, isLoading: bool, errorMessage: string)
    ensures CarouselEnabled(limit, displayMovies, isLoading, errorMessage) ==> displayMovies != [] && !isLoading
  {
    Truthy(limit) && |displayMovies| != 0 && !isLoading && errorMessage == ""
  }

  /**
   * In terms of the list itself: the animation runs exactly when a limit
   * is set, nothing is loading, there is no error, and the limit leaves
   * at least one movie.
   */
  lemma CarouselEnabledIff(movieList: seq<Movie>, limit: Option<int>, isLoading: bool, errorMessage: string)
    ensures CarouselEnabled(limit, DisplayMovies(movieList, limit), isLoading, errorMessage) <==>
      && Truthy(limit) && !isLoading && errorMessage == ""
      && (if limit.value > 0 then movieList != [] else |movieList| + limit.value > 0)
  {
  }

  /** `title.toLowerCase()` on the ASCII letters. */
  function LowerAscii(s: string): (r: string)
    ensures |r| == |s|
    ensures forall i :: 0 <= i < |s| ==> !('A' <= r[i] <= 'Z')
    ensures forall i :: 0 <= i < |s| && !('A' <= s[i] <= 'Z') ==> r[i] == s[i]
    ensures forall i :: 0 <= i < |s| && 'A' <= s[i] <= 'Z' ==> r[i] as int == s[i] as int + 32
  {
    seq(|s|, i requires 0 <= i < |s| =>
      if 'A' <= s[i] <= 'Z' then (s[i] as int + 32) as char else s[i])
  }

  /** A card in a list or carousel, keyed by its movie's id. */
  datatype Card = Card(key: int, view: MovieCard.CardView)

  /** The body of the section under its heading. */
  datatype Body =
    | Spinner(ariaLabel: string)
    | Alert(message: string)
    | Blank
    | CardList(ariaLabel: string, cards: seq<Card>)
    | Carousel(cards: seq<Card>)

  datatype Section = Section(heading: string, body: Body, animated: bool)

  /** One card per movie, in list order, keyed by the movie's id and showing that movie. */
  function CardsOf(movies: seq<Movie>): (cards: seq<Card>)
    ensures |cards| == |movies|
    ensures forall i :: 0 <= i < |movies| ==> cards[i].key == movies[i].id
    ensures forall i :: 0 <= i < |movies| ==> cards[i].view.heading == movies[i].title
    ensures forall i :: 0 <= i < |movies| ==> cards[i].view == MovieCard.CardOf(movies[i])
  {
    seq(|movies|, i requires 0 <= i < |movies| => Card(movies[i].id, MovieCard.CardOf(movies[i])))
  }

  function TitleOf(p: Props): string {
    p.title.GetOr(DefaultTitle)
  }

  /** The section for the props `p`. */
  function Render(p: Props): (r: Section)
    ensures r.heading == TitleOf(p)
    ensures r.body.Spinner? <==> p.isLoading
    ensures r.animated ==> r.body.Carousel?
  {
    var title := TitleOf(p);
    var shown := DisplayMovies(p.movieList, p.limit);
    var body :=
      if p.isLoading then Spinner("Loading " + LowerAscii(title))
      else if p.errorMessage != "" then Alert(p.errorMessage)
      else if |p.movieList| == 0 then Blank
      else if !Truthy(p.limit) then CardList(title + " list", CardsOf(p.movieList))
      else Carousel(CardsOf(shown));
    Section(title, body, CarouselEnabled(p.limit, shown, p.isLoading, p.errorMessage))
  }

  /**
   * Loading wins over everything; otherwise an error wins over the list;
   * with neither and no movies the body is blank.
   */
  lemma ViewPriority(p: Props)
    ensures Render(p).body.Spinner? <==> p.isLoading
    ensures Render(p).body.Alert? <==> !p.isLoading && p.errorMessage != ""
    ensures Render(p).body.Alert? ==> Render(p).body.message == p.errorMessage
    ensures Render(p).body.Blank? <==> !p.isLoading && p.errorMessage == "" && p.movieList == []
  {
  }

  /**
   * Without a limit the list view shows every movie; with one the carousel
   * shows the limited prefix; either way cards are keyed by movie id, in
   * list order.
   */
  lemma ShownMovies(p: Props)
    requires !p.isLoading && p.errorMessage == "" && p.movieList != []
    ensures var b := Render(p).body;
      && (b.CardList? <==> !Truthy(p.limit))
      && (b.Carousel? <==> Truthy(p.limit))
      && (b.CardList? || b.Carousel?)
      && b.cards == CardsOf(DisplayMovies(p.movieList, p.limit))
  {
  }

  /** The animation runs exactly when a carousel with at least one card is on screen. */
  lemma AnimatedIffNonEmptyCarousel(p: Props)
    ensures Render(p).animated <==> Render(p).body.Carousel? && Render(p).body.cards != []
  {
  }

  /** The heading is the title, "Latest Movies" by default; the spinner names it in lower case. */
  lemma TitleAndSpinnerLabel(p: Props)
    ensures p.title.None? ==> Render(p).heading == "Latest Movies"
    ensures p.title.Some? ==> Render(p).heading == p.title.value
    ensures p.isLoading ==> Render(p).body == Spinner("Loading " + LowerAscii(Render(p).heading))
  {
  }
}
