/** What one movie card displays: poster source, alt text, heading, rating and year. */
module MovieCard {
  import opened Types

  const PosterBaseUrl := "https://image.tmdb.org/t/p/w500/"
  /** Image source used when the movie has no poster path. */
  const NoPosterSrc := "/no-movie-png"
  const NoDateText := "No data"

  /** The image source: the poster under the image host, or the placeholder. */
  function PosterSrc(posterPath: string): (src: string)
    ensures posterPath != "" ==> PosterBaseUrl <= src && src[|PosterBaseUrl|..] == posterPath
    ensures posterPath == "" ==> src == NoPosterSrc
  {
    if posterPath != "" then PosterBaseUrl + posterPath else NoPosterSrc
  }

  /** The placeholder is shown exactly when the poster path is empty. */
  lemma PlaceholderIffNoPoster(posterPath: string)
    ensures PosterSrc(posterPath) == NoPosterSrc <==> posterPath == ""
    ensures posterPath != "" ==> PosterBaseUrl <= PosterSrc(posterPath)
  {
    if posterPath != "" {
      assert PosterSrc(posterPath)[0] == 'h';
      assert NoPosterSrc[0] == '/';
    }
  }

  /** Distinct non-empty poster paths give distinct image sources. */
  lemma PosterSrcInjective(p1: string, p2: string)
    requires p1 != "" && p2 != ""
    requires PosterSrc(p1) == PosterSrc(p2)
    ensures p1 == p2
  {
    assert p1 == PosterSrc(p1)[|PosterBaseUrl|..];
    assert p2 == PosterSrc(p2)[|PosterBaseUrl|..];
  }

  /** `s.split(sep)[0]`: the text before the first `sep`, or all of `s` when there is none. */
  function BeforeFirst(s: string, sep: char): (r: string)
    ensures r <= s
    ensures sep !in r
    ensures |r| < |s| ==> s[|r|] == sep
  {
    if s == [] || s[0] == sep then [] else [s[0]] + BeforeFirst(s[1..], sep)
  }

  /** The three properties of BeforeFirst single it out among all prefixes of `s`. */
  lemma BeforeFirstUnique(s: string, sep: char, p: string)
    requires p <= s && sep !in p
    requires |p| < |s| ==> s[|p|] == sep
    ensures p == BeforeFirst(s, sep)
  {
  }

  /** The displayed year: the text of a non-empty release date before its first "-". */
  function YearText(releaseDate: string): (year: string)
    ensures releaseDate == "" ==> year == NoDateText
    ensures releaseDate != "" ==> year <= releaseDate && '-' !in year
    ensures releaseDate != "" && '-' !in releaseDate ==> year == releaseDate
    ensures releaseDate != "" && '-' in releaseDate ==> releaseDate[|year|] == '-'
  {
    if releaseDate != "" then BeforeFirst(releaseDate, '-') else NoDateText
  }

  /** The rating line: "No rating", or the average formatted to one decimal place. */
  datatype RatingText = NoRating | OneDecimal(value: real)

  /** A falsy average (0) reads "No rating"; any other takes the formatted branch. */
  function RatingOf(voteAverage: real): (r: RatingText)
    ensures r.NoRating? <==> voteAverage == 0.0
    ensures r.OneDecimal? ==> r.value == voteAverage
  {
    if voteAverage != 0.0 then OneDecimal(voteAverage) else NoRating
  }

  datatype CardView = CardView(src: string, alt: string, heading: string, rating: RatingText, year: string)

  /** The card for `movie`: image alt text and heading are both the title. */
  function CardOf(movie: Movie): (v: CardView)
    ensures v.alt == movie.title && v.heading == movie.title
    ensures v.src == PosterSrc(movie.posterPath)
    ensures v.rating == RatingOf(movie.voteAverage)
    ensures v.year == YearText(movie.releaseDate)
  {
    CardView(PosterSrc(movie.posterPath), movie.title, movie.title, RatingOf(movie.voteAverage), YearText(movie.releaseDate))
  }

  /** A release date such as "2008-07-16" shows its year. */
  lemma YearOfIsoDate()
    ensures YearText("2008-07-16") == "2008"
  {
    BeforeFirstUnique("2008-07-16", '-', "2008");
  }
}
