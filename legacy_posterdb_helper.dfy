/** The first script (plex-posterdb-helper.py): ThePosterDB sets only. Show
    posters keep the raw second " - " segment of their caption as the
    season ("Cover" without one), and every upload is followed by the
    6-second pause. Its `set_posters` passes three arguments to the
    two-parameter `upload_collection_poster`, so any set with a collection
    poster ends in a TypeError before the first upload. */
module LegacyPosterDbHelper {
  import opened Seqs
  import opened Wrappers
  import opened PyStr
  import opened Library
  import PosterDb
  import Older = LegacySetHelper

  datatype ShowPoster = ShowPoster(title: string, url: string, season: string)
  datatype MoviePoster = MoviePoster(title: string, url: string, year: int)
  datatype CollectionPoster = CollectionPoster(title: string, url: string)

  datatype Posters = Posters(movies: seq<MoviePoster>, shows: seq<ShowPoster>, collections: seq<CollectionPoster>)

  const NoPosters := Posters([], [], [])

  const NotFound := "Poster set not found. Check the link you are inputting."

  /** The URL check of `scrape_posters`. */
  predicate IsSetUrl(url: string) {
    Contains(url, "theposterdb.com") && Contains(url, "set")
  }

  // ---------------------------------------------------------------- cards

  /** A "Show" card: the title before the first " (" and, as the season, the
      second " - " segment verbatim, or "Cover" when there is none. */
  function ShowCard(url: string, caption: string): ShowPoster {
    var title := Split(caption, " (")[0];
    if Contains(caption, " - ") then
      SplitHead(caption, " - ");
      ShowPoster(title, url, Split(caption, " - ")[1])
    else ShowPoster(title, url, "Cover")
  }

  /** A "Movie" card: the caption rule the later script kept unchanged. */
  function MovieCard(url: string, caption: string): Result<MoviePoster> {
    match Older.MovieCard(url, caption)
    case Failure(e) => Failure(e)
    case Success(m) => Success(MoviePoster(m.title, url, m.year))
  }

  function AddCard(acc: Posters, card: PosterDb.Card): Result<Posters> {
    var url := PosterDb.AssetsUrl + card.posterId;
    if card.kind == "Show" then
      Success(acc.(shows := acc.shows + [ShowCard(url, card.caption)]))
    else if card.kind == "Movie" then
      match MovieCard(url, card.caption)
      case Success(p) => Success(acc.(movies := acc.movies + [p]))
      case Failure(e) => Failure(e)
    else if card.kind == "Collection" then
      Success(acc.(collections := acc.collections + [CollectionPoster(card.caption, url)]))
    else Success(acc)
  }

  function ScrapeCards(cards: seq<PosterDb.Card>): Result<Posters> {
    if cards == [] then Success(NoPosters)
    else
      match ScrapeCards(cards[..|cards| - 1])
      case Success(acc) => AddCard(acc, cards[|cards| - 1])
      case Failure(e) => Failure(e)
  }

  /** Each card lands in the list its tooltip label names, or in none. */
  lemma {:induction false} CardsSortedByKind(cards: seq<PosterDb.Card>)
    ensures ScrapeCards(cards).Success? ==>
              var ps := ScrapeCards(cards).value;
              |ps.shows| == PosterDb.KindCount(cards, "Show") && |ps.movies| == PosterDb.KindCount(cards, "Movie") &&
              |ps.collections| == PosterDb.KindCount(cards, "Collection")
  {
    if cards != [] {
      CardsSortedByKind(cards[..|cards| - 1]);
    }
  }

  /** What `scrape_posters` returns or raises for a URL: an exit unless the
      URL names a ThePosterDB set, then the page's grid. */
  function ScrapeSpec(url: string, fetch: string -> Older.Response): (r: Result<Posters>)
    ensures !IsSetUrl(url) ==> r == Failure(SystemExit(NotFound))
  {
    if !IsSetUrl(url) then Failure(SystemExit(NotFound))
    else
      match Older.CookSoup(url, fetch)
      case Failure(e) => Failure(e)
      case Success(soup) =>
        if soup.grid.None? then Failure(PosterDb.NoGrid) else ScrapeCards(soup.grid.value)
  }

  lemma {:induction false} CardsFailurePersists(cards: seq<PosterDb.Card>, i: nat)
    requires i <= |cards| && ScrapeCards(cards[..i]).Failure?
    ensures ScrapeCards(cards) == ScrapeCards(cards[..i])
    decreases |cards| - i
  {
    if i < |cards| {
      TakeSnoc(cards, i);
      CardsFailurePersists(cards, i + 1);
    } else {
      assert cards[..i] == cards;
    }
  }

  /** `scrape_posters`. */
  method ScrapePosters(url: string, fetch: string -> Older.Response) returns (r: Result<Posters>)
    ensures r == ScrapeSpec(url, fetch)
  {
    if !(Contains(url, "theposterdb.com") && Contains(url, "set")) {
      return Failure(SystemExit(NotFound));
    }
    var soup := Older.CookSoup(url, fetch);
    if soup.Failure? {
      return Failure(soup.error);
    }
    if soup.value.grid.None? {
      return Failure(PosterDb.NoGrid);
    }
    var cards := soup.value.grid.value;
    var movies, shows, collections := [], [], [];
    for i := 0 to |cards|
      invariant ScrapeCards(cards[..i]) == Success(Posters(movies, shows, collections))
    {
      TakeSnoc(cards, i);
      var card := cards[i];
      var link := PosterDb.AssetsUrl + card.posterId;
      if card.kind == "Show" {
        shows := shows + [ShowCard(link, card.caption)];
      } else if card.kind == "Movie" {
        var parsed := MovieCard(link, card.caption);
        if parsed.Failure? {
          CardsFailurePersists(cards, i + 1);
          return Failure(parsed.error);
        }
        movies := movies + [parsed.value];
      } else if card.kind == "Collection" {
        collections := collections + [CollectionPoster(card.caption, link)];
      }
    }
    TakeAll(cards);
    return Success(Posters(movies, shows, collections));
  }

  // ---------------------------------------------------------------- caption lemmas

  /** A canonical show caption "T (YYYY)" + tail, T free of " (" and " -":
      the title is T and the season the tail's text after " - " verbatim
      ("Specials", "Season N"), or "Cover" without a tail. */
  lemma ShowCanonicalCaption(url: string, t: string, y: string, tail: PosterDb.CaptionTail)
    requires !Contains(t, " (") && !Contains(t, " -") && |y| == 4 && AllDigits(y)
    ensures ShowCard(url, t + " (" + y + ")" + PosterDb.TailText(tail)) ==
            ShowPoster(t, url, if tail.CoverTail? then "Cover" else PosterDb.TailText(tail)[3..])
  {
    var head := t + " (" + y + ")";
    var c := head + PosterDb.TailText(tail);
    PosterDb.NoParenInTail(tail);
    PosterDb.CanonicalParens(t, y, PosterDb.TailText(tail));
    if tail.CoverTail? {
      PosterDb.CanonicalCover(t, y);
    } else {
      PosterDb.HeadHasNoDash(t, y);
      PosterDb.TailSegment(tail);
      var seg := PosterDb.TailText(tail)[3..];
      assert c == head + " - " + seg;
      PosterDb.DashSplit(head, seg);
      SplitHead(c, " - ");
      assert Split(c, " - ")[1] == seg;
    }
  }

  /** The movie rule: "T (YYYY)" with T free of " (" is T of year YYYY. */
  lemma MoviePlainCaption(url: string, t: string, y: string)
    requires !Contains(t, " (") && |y| == 4 && AllDigits(y)
    ensures MovieCard(url, t + " (" + y + ")") == Success(MoviePoster(t, url, DigitsValue(y)))
  {
    PosterDb.MoviePlainCaption(url, t, y);
    Older.MovieCardAgrees(url, t + " (" + y + ")");
  }

  /** "T (X (YYYY)" with a second chunk X not 5 long: the title is "T (X". */
  lemma MovieFoldedCaption(url: string, t: string, x: string, y: string)
    requires !Contains(t, " (") && !Contains(x, " (") && |x| != 5 && |y| == 4 && AllDigits(y)
    ensures MovieCard(url, t + " (" + x + " (" + y + ")") == Success(MoviePoster(t + " (" + x, url, DigitsValue(y)))
  {
    PosterDb.MovieFoldedCaption(url, t, x, y);
    Older.MovieCardAgrees(url, t + " (" + x + " (" + y + ")");
  }

  // ---------------------------------------------------------------- uploads

  /** The target `upload_tv_poster` picks in the found show: the show for
      "Cover", the season titled "Specials" for "Special", and otherwise the
      season titled by the segment; None when that season is missing. */
  function TvTarget(p: ShowPoster, show: Item, plex: Plex): Option<Target> {
    if p.season == "Cover" then Some(Whole(show))
    else
      var key := if p.season == "Special" then SeasonTitle("Specials") else SeasonTitle(p.season);
      Older.SeasonTarget(show, key, plex)
  }

  /** `upload_tv_poster`: the show by title, always `uploadPoster`, then the
      pause; whatever raises is caught and skips the rest. */
  function TvPosterEvents(p: ShowPoster, tv: Section, plex: Plex): seq<Event> {
    var q := Titled(p.title, None);
    if q !in tv.lookup then []
    else
      match TvTarget(p, tv.lookup[q], plex)
      case None => []
      case Some(target) =>
        var call := PosterUpload(target, Older.Art(p.url));
        if call in plex.refused then [call] else [call, Pause(6)]
  }

  /** `upload_movie_poster`, the same as in the later script. */
  function MoviePosterEvents(p: MoviePoster, movies: Section, plex: Plex): seq<Event> {
    Older.MoviePosterEvents(Older.MoviePoster(p.title, p.url, p.year, ""), movies, plex)
  }

  /** `upload_collection_poster`, the same as in the later script: one upload
      to the first collection titled exactly like the poster. */
  method UploadCollectionPoster(p: CollectionPoster, movies: Section, plex: Plex) returns (r: Result<seq<Event>>)
    ensures r == Older.CollectionOutcome(p.title, p.url, movies, plex)
  {
    r := Older.UploadCollectionPoster(p.title, p.url, movies, plex);
  }

  /** Calling the two-parameter `upload_collection_poster` with three. */
  const Arity := TypeError("upload_collection_poster() takes 2 positional arguments but 3 were given")

  function MoviesRun(ms: seq<MoviePoster>, movies: Section, plex: Plex): seq<Event> {
    if ms == [] then [] else MoviesRun(ms[..|ms| - 1], movies, plex) + MoviePosterEvents(ms[|ms| - 1], movies, plex)
  }

  function ShowsRun(ss: seq<ShowPoster>, tv: Section, plex: Plex): seq<Event> {
    if ss == [] then [] else ShowsRun(ss[..|ss| - 1], tv, plex) + TvPosterEvents(ss[|ss| - 1], tv, plex)
  }

  /** What `set_posters` does for one URL: the uploads and the exception
      that stopped it, if any. */
  function SetPostersSpec(url: string, fetch: string -> Older.Response, tv: Section, movies: Section, plex: Plex)
    : (seq<Event>, Option<Error>)
  {
    match ScrapeSpec(url, fetch)
    case Failure(e) => ([], Some(e))
    case Success(ps) =>
      if ps.collections != [] then ([], Some(Arity))
      else (MoviesRun(ps.movies, movies, plex) + ShowsRun(ps.shows, tv, plex), None)
  }

  /** `set_posters`. */
  method SetPosters(url: string, fetch: string -> Older.Response, tv: Section, movies: Section, plex: Plex)
    returns (events: seq<Event>, error: Option<Error>)
    ensures (events, error) == SetPostersSpec(url, fetch, tv, movies, plex)
  {
    var scraped := ScrapePosters(url, fetch);
    if scraped.Failure? {
      return [], Some(scraped.error);
    }
    var ps := scraped.value;
    if |ps.collections| > 0 {
      return [], Some(Arity);
    }
    events := [];
    for i := 0 to |ps.movies|
      invariant events == MoviesRun(ps.movies[..i], movies, plex)
    {
      TakeSnoc(ps.movies, i);
      events := events + MoviePosterEvents(ps.movies[i], movies, plex);
    }
    TakeAll(ps.movies);
    ghost var done := events;
    for i := 0 to |ps.shows|
      invariant events == done + ShowsRun(ps.shows[..i], tv, plex)
    {
      TakeSnoc(ps.shows, i);
      events := events + TvPosterEvents(ps.shows[i], tv, plex);
    }
    TakeAll(ps.shows);
    error := None;
  }

  // ---------------------------------------------------------------- properties

  /** A set with a collection poster uploads nothing and ends in the
      TypeError; one without has no error from the uploads. */
  lemma CollectionSetsCrash(url: string, fetch: string -> Older.Response, tv: Section, movies: Section, plex: Plex)
    requires ScrapeSpec(url, fetch).Success?
    ensures var out := SetPostersSpec(url, fetch, tv, movies, plex);
            (ScrapeSpec(url, fetch).value.collections != [] <==> out.1 == Some(Arity)) &&
            (ScrapeSpec(url, fetch).value.collections != [] ==> out.0 == []) &&
            (ScrapeSpec(url, fetch).value.collections == [] ==> out.1.None?)
  {
  }

  /** Every upload that does not raise is followed at once by the pause. */
  predicate PausedUploads(events: seq<Event>, plex: Plex) {
    forall i :: 0 <= i < |events| && events[i].PosterUpload? && events[i] !in plex.refused ==>
      i + 1 < |events| && events[i + 1] == Pause(6)
  }

  /** Only uploads and pauses, and no pause without an upload before it. */
  predicate UploadsAndPauses(events: seq<Event>) {
    forall i {:trigger events[i]} :: 0 <= i < |events| ==> events[i].PosterUpload? || (events[i] == Pause(6) && i > 0 && events[i - 1].PosterUpload?)
  }

  lemma PausedConcat(a: seq<Event>, b: seq<Event>, plex: Plex)
    requires PausedUploads(a, plex) && PausedUploads(b, plex) && UploadsAndPauses(a) && UploadsAndPauses(b)
    ensures PausedUploads(a + b, plex) && UploadsAndPauses(a + b)
  {
    var ab := a + b;
    forall i | 0 <= i < |ab| && ab[i].PosterUpload? && ab[i] !in plex.refused
      ensures i + 1 < |ab| && ab[i + 1] == Pause(6)
    {
      if i < |a| {
        assert a[i] == ab[i];
        assert ab[i + 1] == a[i + 1];
      } else {
        assert b[i - |a|] == ab[i];
        assert ab[i + 1] == b[i - |a| + 1];
      }
    }
    forall i | 0 <= i < |ab|
      ensures ab[i].PosterUpload? || (ab[i] == Pause(6) && i > 0 && ab[i - 1].PosterUpload?)
    {
      if i < |a| {
        assert ab[i] == a[i];
        assert a[i].PosterUpload? || (a[i] == Pause(6) && i > 0 && a[i - 1].PosterUpload?);
        if i > 0 { assert ab[i - 1] == a[i - 1]; }
      } else {
        var j := i - |a|;
        assert ab[i] == b[j];
        assert b[j].PosterUpload? || (b[j] == Pause(6) && j > 0 && b[j - 1].PosterUpload?);
        if j > 0 { assert ab[i - 1] == b[j - 1]; }
      }
    }
  }

  lemma {:induction false} MoviesPaused(ms: seq<MoviePoster>, movies: Section, plex: Plex)
    ensures PausedUploads(MoviesRun(ms, movies, plex), plex) && UploadsAndPauses(MoviesRun(ms, movies, plex))
  {
    if ms != [] {
      MoviesPaused(ms[..|ms| - 1], movies, plex);
      PausedConcat(MoviesRun(ms[..|ms| - 1], movies, plex), MoviePosterEvents(ms[|ms| - 1], movies, plex), plex);
    }
  }

  lemma {:induction false} ShowsPaused(ss: seq<ShowPoster>, tv: Section, plex: Plex)
    ensures PausedUploads(ShowsRun(ss, tv, plex), plex) && UploadsAndPauses(ShowsRun(ss, tv, plex))
  {
    if ss != [] {
      ShowsPaused(ss[..|ss| - 1], tv, plex);
      PausedConcat(ShowsRun(ss[..|ss| - 1], tv, plex), TvPosterEvents(ss[|ss| - 1], tv, plex), plex);
    }
  }

  /** In this script every upload that went through is followed by the
      6-second pause, shows included. */
  lemma SetPostersPaused(url: string, fetch: string -> Older.Response, tv: Section, movies: Section, plex: Plex)
    ensures PausedUploads(SetPostersSpec(url, fetch, tv, movies, plex).0, plex)
  {
    match ScrapeSpec(url, fetch)
    case Failure(_) =>
    case Success(ps) =>
      if ps.collections == [] {
        MoviesPaused(ps.movies, movies, plex);
        ShowsPaused(ps.shows, tv, plex);
        PausedConcat(MoviesRun(ps.movies, movies, plex), ShowsRun(ps.shows, tv, plex), plex);
      }
  }

  /** Where a found show's poster goes: "Cover" to the show, "Special" to the
      season titled "Specials", any other season text to the season with
      that title. */
  lemma TvTargets(p: ShowPoster, show: Item, plex: Plex)
    ensures p.season == "Cover" ==> TvTarget(p, show, plex) == Some(Whole(show))
    ensures p.season == "Special" ==>
              TvTarget(p, show, plex) ==
              if (show, SeasonTitle("Specials")) in plex.seasons then Some(SeasonOf(show, SeasonTitle("Specials"))) else None
    ensures p.season != "Cover" && p.season != "Special" ==>
              TvTarget(p, show, plex) ==
              if (show, SeasonTitle(p.season)) in plex.seasons then Some(SeasonOf(show, SeasonTitle(p.season))) else None
  {
  }
}
