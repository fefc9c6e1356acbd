/** Record shapes shared by the data-fetch hook and the presentation components. */
module Types {

  /** An optional value: a JSON field that may be absent, or an optional prop. */
  datatype Option<+T> = None | Some(value: T) {

    /** The value, or `default` when absent (JavaScript's `x || default` for a truthy `x`). */
    function GetOr(default: T): T {
      match this
      case Some(v) => v
      case None => default
    }
  }

  /**
   * A movie as the movie database returns it. A `null` poster path is
   * represented by the empty string (both are falsy where it is read).
   * The rating is a real number; floating-point formatting is not modelled.
   */
  datatype Movie = Movie(
    id: int,
    title: string,
    overview: string,
    posterPath: string,
    voteAverage: real,
    releaseDate: string)

  /**
   * A trend-store document as the trending list receives it: `$id`,
   * `poster_url`, `title` and `searchTerm`, plus the untyped `movie_title`
   * field that the trending list reads although the record type lacks it.
   */
  datatype TrendingMovie = TrendingMovie(
    id: string,
    posterUrl: string,
    title: string,
    searchTerm: string,
    movieTitle: Option<string>)
}
