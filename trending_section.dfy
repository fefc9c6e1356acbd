/** What the trending list shows: numbered entries with a poster each, or nothing at all. */
module TrendingSection {
  import opened Types

  /** The poster URL the trend store holds for a movie without a poster. */
  const NullPosterUrl := "https://image.tmdb.org/t/p/w500null"
  const NoPosterSrc := "no-movie.png"
  const AltPrefix := "Movie poster for "

  /** The image source: the stored URL, with the null-poster sentinel swapped for the placeholder. */
  function PosterSrc(posterUrl: string): (src: string)
    ensures src != NullPosterUrl
    ensures posterUrl != NullPosterUrl ==> src == posterUrl
    ensures posterUrl == NullPosterUrl ==> src == NoPosterSrc
  {
    if posterUrl == NullPosterUrl then NoPosterSrc else posterUrl
  }

  /** A template literal renders an absent field as "undefined". */
  function TemplateText(field: Option<string>): string {
    match field
    case Some(t) => t
    case None => "undefined"
  }

  /** The alt text reads the document's `movie_title`, not the typed `title`. */
  function AltText(movie: TrendingMovie): (alt: string)
    ensures AltPrefix <= alt
    ensures movie.movieTitle.Some? ==> alt[|AltPrefix|..] == movie.movieTitle.value
  {
    AltPrefix + TemplateText(movie.movieTitle)
  }

  lemma AltTextIgnoresTitle(movie: TrendingMovie, title: string)
    ensures AltText(movie.(title := title)) == AltText(movie)
    ensures movie.movieTitle.None? ==> AltText(movie) == "Movie poster for undefined"
  {
  }

  /** One list entry: its key, its rank number, its image source and alt text. */
  datatype Entry = Entry(key: string, rank: int, src: string, alt: string)

  /** The rendered list, or None when there is nothing to render. */
  function Render(trendingMovies: seq<TrendingMovie>): (r: Option<seq<Entry>>)
    ensures r.None? <==> trendingMovies == []
    ensures r.Some? ==> |r.value| == |trendingMovies|
  {
    if |trendingMovies| == 0 then None
    else Some(seq(|trendingMovies|, i requires 0 <= i < |trendingMovies| =>
      var movie := trendingMovies[i];
      Entry(movie.id, i + 1, PosterSrc(movie.posterUrl), AltText(movie))))
  }

  /**
   * Entries follow the input order, keyed by `$id`, ranked 1 to n; the
   * sentinel URL never reaches an image.
   */
  lemma EntriesInOrder(trendingMovies: seq<TrendingMovie>)
    requires trendingMovies != []
    ensures var entries := Render(trendingMovies).value;
      && (forall i :: 0 <= i < |entries| ==> entries[i].key == trendingMovies[i].id)
      && (forall i :: 0 <= i < |entries| ==> entries[i].rank == i + 1)
      && (forall i :: 0 <= i < |entries| ==> entries[i].src != NullPosterUrl)
      && (forall i :: 0 <= i < |entries| ==> entries[i].src == PosterSrc(trendingMovies[i].posterUrl))
      && (forall i :: 0 <= i < |entries| ==> entries[i].alt == AltText(trendingMovies[i]))
  {
  }

  /** Ranks are exactly 1, 2, ..., n: strictly increasing, starting at 1 and ending at n. */
  lemma RanksRunOneToN(trendingMovies: seq<TrendingMovie>)
    requires trendingMovies != []
    ensures var entries := Render(trendingMovies).value;
      && entries[0].rank == 1
      && entries[|entries| - 1].rank == |trendingMovies|
      && forall i, j :: 0 <= i < j < |entries| ==> entries[i].rank < entries[j].rank
  {
  }
}
