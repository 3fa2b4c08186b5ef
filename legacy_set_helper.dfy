/** The older single-library script (plex-poster-set-helper.py): the same
    ThePosterDB grid, a MediUX reader that cuts the page's script texts
    apart with `split`, and uploads driven by the string sentinels "Cover"
    and "Backdrop" that stand in for a season or an episode. Posters are
    typed records here; the sentinels become constructors. */
module LegacySetHelper {
  import opened Seqs
  import opened Wrappers
  import opened PyStr
  import opened Library
  import PosterDb

  // ---------------------------------------------------------------- posters

  /** A show poster's "season": the "Cover" or "Backdrop" sentinel, or a number. */
  datatype Season = CoverSeason | BackdropSeason | SeasonNo(n: int)

  /** A show poster's "episode": None, the "Cover" sentinel, or a number. */
  datatype Episode = NoEpisode | CoverEpisode | EpisodeNo(n: int)

  datatype ShowPoster = ShowPoster(title: string, url: string, season: Season, episode: Episode, source: string)
  datatype MoviePoster = MoviePoster(title: string, url: string, year: int, source: string)
  datatype CollectionPoster = CollectionPoster(title: string, url: string, source: string)

  /** The three lists a scraper returns. */
  datatype Posters = Posters(movies: seq<MoviePoster>, shows: seq<ShowPoster>, collections: seq<CollectionPoster>)

  const NoPosters := Posters([], [], [])

  /** `pieces[k]` for `k >= 0`. */
  function Piece(pieces: seq<string>, k: nat): (r: Result<string>)
    ensures r.Success? <==> k < |pieces|
    ensures r.Success? ==> r.value == pieces[k]
    ensures r.Failure? ==> r.error == IndexError("list index out of range")
  {
    if k < |pieces| then Success(pieces[k]) else Failure(IndexError("list index out of range"))
  }

  /** Cutting at " - " right after `t`, where `t` has no " - " and does not
      end in " -" (which would start an earlier occurrence). */
  lemma DashSplitAfter(t: string, u: string)
    requires !Contains(t, " - ") && !EndsWith(t, " -")
    ensures Split(t + " - " + u, " - ") == [t] + Split(u, " - ")
  {
    var sep := " - ";
    forall k | 0 < k < |sep| && k <= |t|
      ensures !(t[|t| - k..] == sep[..k] && sep[k..] == sep[..|sep| - k])
    {
      if k == 1 {
        assert sep[1..][0] == '-' && sep[..2][0] == ' ';
      } else {
        assert sep[..2] == " -";
      }
    }
    SplitAfterClean(t, sep, u);
  }

  // ---------------------------------------------------------------- the page

  /** The parts of a page the scrapers read: the poster grid (None when the
      page has none) and the texts of its script tags. */
  datatype Soup = Soup(grid: Option<seq<PosterDb.Card>>, scripts: seq<string>)

  /** What `requests.get` answers for a URL. */
  datatype Response = Response(status: int, soup: Soup)

  /** `cook_soup`: the parsed page, or an exit for any status but 200. */
  function CookSoup(url: string, fetch: string -> Response): (r: Result<Soup>)
    ensures r.Success? <==> fetch(url).status == 200
    ensures r.Success? ==> r.value == fetch(url).soup
    ensures r.Failure? ==> r.error.SystemExit?
  {
    var response := fetch(url);
    if response.status == 200 then Success(response.soup)
    else Failure(SystemExit("Failed to retrieve the page. Status code: " + IntToStr(response.status)))
  }

  // ---------------------------------------------------------------- scrape_posterdb

  /** The season of a "Show" caption: "Cover" without " - "; otherwise the
      second " - " segment, where "Specials" is 0 and any other segment
      must have an `int()`-able second word. */
  function GridSeason(caption: string): Result<Season> {
    if Contains(caption, " - ") then
      match Piece(Split(caption, " - "), 1)
      case Failure(e) => Failure(e)
      case Success(segment) => SegmentSeason(segment)
    else Success(CoverSeason)
  }

  function SegmentSeason(segment: string): Result<Season> {
    if segment == "Specials" then Success(SeasonNo(0))
    else
      match Piece(Split(segment, " "), 1)
      case Failure(e) => Failure(e)
      case Success(word) =>
        match ParseInt(word)
        case None => Failure(ValueError("invalid literal for int() with base 10"))
        case Some(n) => Success(SeasonNo(n))
  }

  /** A "Show" card: the title before the first " (", no episode. */
  function ShowCard(url: string, caption: string): Result<ShowPoster> {
    match GridSeason(caption)
    case Failure(e) => Failure(e)
    case Success(season) => Success(ShowPoster(Split(caption, " (")[0], url, season, NoEpisode, "posterdb"))
  }

  /** A "Movie" card: a second " (" chunk whose length is not 5 is folded
      back into the title; the year is `int()` of the last chunk up to ")". */
  function MovieCard(url: string, caption: string): Result<MoviePoster> {
    var chunks := Split(caption, " (");
    match Piece(chunks, 1)
    case Failure(e) => Failure(e)
    case Success(second) =>
      var title := if |second| != 5 then chunks[0] + " (" + second else chunks[0];
      match ParseInt(Split(Last(chunks), ")")[0])
      case None => Failure(ValueError("invalid literal for int() with base 10"))
      case Some(y) => Success(MoviePoster(title, url, y, "posterdb"))
  }

  function CollectionCard(url: string, caption: string): CollectionPoster {
    CollectionPoster(caption, url, "posterdb")
  }

  /** The lists after one more card; other kinds are ignored. */
  function AddCard(acc: Posters, card: PosterDb.Card): Result<Posters> {
    var url := PosterDb.AssetsUrl + card.posterId;
    if card.kind == "Show" then
      match ShowCard(url, card.caption)
      case Success(p) => Success(acc.(shows := acc.shows + [p]))
      case Failure(e) => Failure(e)
    else if card.kind == "Movie" then
      match MovieCard(url, card.caption)
      case Success(p) => Success(acc.(movies := acc.movies + [p]))
      case Failure(e) => Failure(e)
    else if card.kind == "Collection" then
      Success(acc.(collections := acc.collections + [CollectionCard(url, card.caption)]))
    else Success(acc)
  }

  function ScrapeCards(cards: seq<PosterDb.Card>): Result<Posters> {
    if cards == [] then Success(NoPosters)
    else
      match ScrapeCards(cards[..|cards| - 1])
      case Success(acc) => AddCard(acc, cards[|cards| - 1])
      case Failure(e) => Failure(e)
  }

  /** What `scrape_posterdb` gives for a page: `find_all` on a missing grid
      raises. */
  function PosterdbSpec(grid: Option<seq<PosterDb.Card>>): Result<Posters> {
    if grid.None? then Failure(PosterDb.NoGrid) else ScrapeCards(grid.value)
  }

  /** Each card lands in the list its tooltip label names, or in none. */
  lemma {:induction false} CardsSortedByKind(cards: seq<PosterDb.Card>)
    ensures ScrapeCards(cards).Success? ==>
              var ps := ScrapeCards(cards).value;
              |ps.shows| == PosterDb.KindCount(cards, "Show") && |ps.movies| == PosterDb.KindCount(cards, "Movie") &&
              |ps.collections| == PosterDb.KindCount(cards, "Collection")
  {
    if cards != [] {
      CardsSortedByKind(cards[..|cards| - 1]);
    }
  }

  lemma {:induction false} CardsFailurePersists(cards: seq<PosterDb.Card>, i: nat)
    requires i <= |cards| && ScrapeCards(cards[..i]).Failure?
    ensures ScrapeCards(cards) == ScrapeCards(cards[..i])
    decreases |cards| - i
  {
    if i < |cards| {
      TakeSnoc(cards, i);
      CardsFailurePersists(cards, i + 1);
    } else {
      assert cards[..i] == cards;
    }
  }

  /** `scrape_posterdb`: the cards sorted into the three lists in page order. */
  method ScrapePosterdb(grid: Option<seq<PosterDb.Card>>) returns (r: Result<Posters>)
    ensures r == PosterdbSpec(grid)
  {
    if grid.None? {
      return Failure(PosterDb.NoGrid);
    }
    var cards := grid.value;
    var movies, shows, collections := [], [], [];
    for i := 0 to |cards|
      invariant ScrapeCards(cards[..i]) == Success(Posters(movies, shows, collections))
    {
      TakeSnoc(cards, i);
      var card := cards[i];
      var url := PosterDb.AssetsUrl + card.posterId;
      if card.kind == "Show" {
        var parsed := ShowCard(url, card.caption);
        if parsed.Failure? {
          CardsFailurePersists(cards, i + 1);
          return Failure(parsed.error);
        }
        shows := shows + [parsed.value];
      } else if card.kind == "Movie" {
        var parsed := MovieCard(url, card.caption);
        if parsed.Failure? {
          CardsFailurePersists(cards, i + 1);
          return Failure(parsed.error);
        }
        movies := movies + [parsed.value];
      } else if card.kind == "Collection" {
        collections := collections + [CollectionCard(url, card.caption)];
      }
    }
    TakeAll(cards);
    return Success(Posters(movies, shows, collections));
  }

  // ---------------------------------------------------------------- grid caption lemmas

  /** The movie rule is the one of the newer script: both read the same title
      and year from a caption, and fail on the same captions. */
  lemma MovieCardAgrees(url: string, caption: string)
    ensures MovieCard(url, caption).Success? <==> PosterDb.MovieCard(url, caption).Success?
    ensures MovieCard(url, caption).Success? ==>
              var m := PosterDb.MovieCard(url, caption).value;
              m.year.Some? && MovieCard(url, caption).value == MoviePoster(m.title, url, m.year.value, "posterdb")
  {
  }

  /** On segments that are "Specials" or name a "Season", the season is the
      one the newer script reads; the newer one gives None where this one
      demands a number. */
  lemma SegmentSeasonAgrees(segment: string)
    requires segment == "Specials" || Contains(segment, "Season")
    ensures SegmentSeason(segment).Success? <==> PosterDb.SegmentSeason(segment).Success?
    ensures SegmentSeason(segment).Success? ==>
              PosterDb.SegmentSeason(segment).value.Some? &&
              SegmentSeason(segment).value == SeasonNo(PosterDb.SegmentSeason(segment).value.value)
  {
  }

  /** A canonical show caption "T (YYYY)" + tail, T free of " (" and " -":
      the title is T, no episode, and the season is "Cover" without a tail,
      0 for " - Specials" and N for " - Season N". */
  lemma ShowCanonicalCaption(url: string, t: string, y: string, tail: PosterDb.CaptionTail)
    requires !Contains(t, " (") && !Contains(t, " -") && |y| == 4 && AllDigits(y)
    ensures ShowCard(url, t + " (" + y + ")" + PosterDb.TailText(tail)) ==
            Success(ShowPoster(t, url, TailSentinel(tail), NoEpisode, "posterdb"))
  {
    var c := t + " (" + y + ")" + PosterDb.TailText(tail);
    PosterDb.NoParenInTail(tail);
    PosterDb.CanonicalParens(t, y, PosterDb.TailText(tail));
    if tail.CoverTail? {
      PosterDb.CanonicalCover(t, y);
      assert GridSeason(c) == Success(CoverSeason);
    } else {
      CanonicalDashSeason(t, y, tail);
    }
    ShowCardOfPieces(url, c, t, TailSentinel(tail));
  }

  lemma ShowCardOfPieces(url: string, c: string, title: string, season: Season)
    requires Split(c, " (")[0] == title && GridSeason(c) == Success(season)
    ensures ShowCard(url, c) == Success(ShowPoster(title, url, season, NoEpisode, "posterdb"))
  {
  }

  /** " - Specials" and " - Season N" after "T (YYYY)" give their season. */
  lemma CanonicalDashSeason(t: string, y: string, tail: PosterDb.CaptionTail)
    requires !Contains(t, " -") && |y| == 4 && AllDigits(y) && !tail.CoverTail?
    ensures GridSeason(t + " (" + y + ")" + PosterDb.TailText(tail)) == Success(TailSentinel(tail))
  {
    var head := t + " (" + y + ")";
    var seg := PosterDb.TailText(tail)[3..];
    PosterDb.CanonicalDash(t, y, tail);
    PosterDb.HeadHasNoDash(t, y);
    PosterDb.TailSegment(tail);
    assert head + PosterDb.TailText(tail) == head + " - " + seg;
    PosterDb.DashSplit(head, seg);
    TailSegmentSeason(tail);
  }

  lemma TailSegmentSeason(tail: PosterDb.CaptionTail)
    requires !tail.CoverTail?
    ensures SegmentSeason(PosterDb.TailText(tail)[3..]) == Success(TailSentinel(tail))
  {
    var seg := PosterDb.TailText(tail)[3..];
    PosterDb.TailSegment(tail);
    assert PosterDb.SegmentSeason(seg).Success? && PosterDb.SegmentSeason(seg).value.Some?;
    SegmentSeasonAgrees(seg);
  }

  function TailSentinel(tail: PosterDb.CaptionTail): Season {
    match tail
    case CoverTail => CoverSeason
    case SpecialsTail => SeasonNo(0)
    case SeasonTail(n) => SeasonNo(n)
  }

  /** A "Collection" card keeps the caption verbatim as its title. */
  lemma CollectionVerbatim(acc: Posters, card: PosterDb.Card)
    requires card.kind == "Collection"
    ensures AddCard(acc, card) ==
            Success(acc.(collections := acc.collections + [CollectionPoster(card.caption, PosterDb.AssetsUrl + card.posterId, "posterdb")]))
  {
  }

  // ---------------------------------------------------------------- S(\d+) E(\d+)

  /** The length of the run of ASCII digits in `s` from index `i`. */
  function DigitRun(s: string, i: nat): (n: nat)
    requires i <= |s|
    ensures i + n <= |s| && AllDigits(s[i..i + n])
    ensures i + n == |s| || !IsDigit(s[i + n])
    decreases |s| - i
  {
    if i < |s| && IsDigit(s[i]) then
      var n := 1 + DigitRun(s, i + 1);
      assert s[i..i + n] == [s[i]] + s[i + 1..i + n];
      n
    else 0
  }

  lemma {:induction false} DigitRunExact(s: string, i: nat, n: nat)
    requires i + n <= |s| && AllDigits(s[i..i + n]) && (i + n == |s| || !IsDigit(s[i + n]))
    ensures DigitRun(s, i) == n
    decreases n
  {
    if n > 0 {
      assert s[i] == s[i..i + n][0];
      assert s[i + 1..i + n] == s[i..i + n][1..];
      DigitRunExact(s, i + 1, n - 1);
    }
  }

  /** `S(\d+) E(\d+)` matched at index `i`. Both groups are greedy, and
      backtracking never helps: a shorter first group leaves a digit where
      the pattern needs the space. */
  function MatchAt(s: string, i: nat): Option<(int, int)>
    requires i <= |s|
  {
    if i < |s| && s[i] == 'S' then
      var a := DigitRun(s, i + 1);
      var j := i + 1 + a;
      if a >= 1 && j + 2 <= |s| && s[j] == ' ' && s[j + 1] == 'E' then
        var b := DigitRun(s, j + 2);
        if b >= 1 then Some((DigitsValue(s[i + 1..j]) as int, DigitsValue(s[j + 2..j + 2 + b]) as int)) else None
      else None
    else None
  }

  /** `re.search(r'S(\d+) E(\d+)', s)` from index `i`: the leftmost match,
      with its two groups as ints. */
  function SearchFrom(s: string, i: nat): Option<(int, int)>
    requires i <= |s|
    decreases |s| - i
  {
    if i == |s| then None
    else if MatchAt(s, i).Some? then MatchAt(s, i) else SearchFrom(s, i + 1)
  }

  function SearchEpisode(s: string): Option<(int, int)> {
    SearchFrom(s, 0)
  }

  /** No match starts where there is no 'S'. */
  lemma {:induction false} SkipNoS(s: string, i: nat, j: nat)
    requires i <= j <= |s| && forall k :: i <= k < j ==> s[k] != 'S'
    ensures SearchFrom(s, i) == SearchFrom(s, j)
    decreases j - i
  {
    if i < j {
      SkipNoS(s, i + 1, j);
    }
  }

  /** "S<a> E<b>" after text without 'S' is found, with groups a and b, as
      long as no further digit follows b. */
  lemma EpisodeFound(p: string, a: string, b: string, rest: string)
    requires 'S' !in p && |a| >= 1 && AllDigits(a) && |b| >= 1 && AllDigits(b)
    requires rest == [] || !IsDigit(rest[0])
    ensures SearchEpisode(p + "S" + a + " E" + b + rest) == Some((DigitsValue(a) as int, DigitsValue(b) as int))
  {
    var s := p + "S" + a + " E" + b + rest;
    EpisodePieces(p, a, b, rest, s);
    EpisodeOfPieces(s, |p|, a, b);
  }

  lemma EpisodeOfPieces(s: string, i: nat, a: string, b: string)
    requires |a| >= 1 && |b| >= 1 && AllDigits(a) && AllDigits(b)
    requires i + 3 + |a| + |b| <= |s| && s[i] == 'S' && 'S' !in s[..i]
    requires s[i + 1..i + 1 + |a|] == a && s[i + 1 + |a|] == ' ' && s[i + 2 + |a|] == 'E'
    requires s[i + 3 + |a|..i + 3 + |a| + |b|] == b
    requires i + 3 + |a| + |b| == |s| || !IsDigit(s[i + 3 + |a| + |b|])
    ensures SearchEpisode(s) == Some((DigitsValue(a) as int, DigitsValue(b) as int))
  {
    FoundAfterNoS(s, i, |a|, |b|);
  }

  /** A match at `i` after a prefix without 'S' is the leftmost one. */
  lemma FoundAfterNoS(s: string, i: nat, na: nat, nb: nat)
    requires i + 1 + na + 2 + nb <= |s| && na >= 1 && nb >= 1 && s[i] == 'S' && 'S' !in s[..i]
    requires AllDigits(s[i + 1..i + 1 + na]) && s[i + 1 + na] == ' ' && s[i + 2 + na] == 'E'
    requires AllDigits(s[i + 3 + na..i + 3 + na + nb])
    requires i + 3 + na + nb == |s| || !IsDigit(s[i + 3 + na + nb])
    ensures SearchFrom(s, 0) == Some((DigitsValue(s[i + 1..i + 1 + na]) as int, DigitsValue(s[i + 3 + na..i + 3 + na + nb]) as int))
  {
    MatchFound(s, i, na, nb);
    forall k | 0 <= k < i
      ensures s[k] != 'S'
    {
      assert s[..i][k] == s[k];
    }
    SkipNoS(s, 0, i);
  }

  lemma EpisodePieces(p: string, a: string, b: string, rest: string, s: string)
    requires s == p + "S" + a + " E" + b + rest
    requires |a| >= 1 && AllDigits(a) && |b| >= 1 && AllDigits(b) && (rest == [] || !IsDigit(rest[0]))
    ensures var i, j := |p|, |p| + 1 + |a|;
            j + 2 + |b| <= |s| && s[i] == 'S' && s[j] == ' ' && s[j + 1] == 'E' &&
            s[i + 1..j] == a && s[j + 2..j + 2 + |b|] == b &&
            (j + 2 + |b| == |s| || !IsDigit(s[j + 2 + |b|])) &&
            s[..i] == p
  {
    var j := |p| + 1 + |a|;
    assert s == p + "S" + a + " E" + (b + rest);
    assert j + 2 + |b| < |s| ==> s[j + 2 + |b|] == rest[0];
  }

  /** A match at `i` whose digit groups are `na` and `nb` long. */
  lemma MatchFound(s: string, i: nat, na: nat, nb: nat)
    requires i + 1 + na + 2 + nb <= |s| && na >= 1 && nb >= 1 && s[i] == 'S'
    requires AllDigits(s[i + 1..i + 1 + na]) && !IsDigit(s[i + 1 + na])
    requires s[i + 1 + na] == ' ' && s[i + 2 + na] == 'E'
    requires AllDigits(s[i + 3 + na..i + 3 + na + nb])
    requires i + 3 + na + nb == |s| || !IsDigit(s[i + 3 + na + nb])
    ensures SearchFrom(s, i) == Some((DigitsValue(s[i + 1..i + 1 + na]) as int, DigitsValue(s[i + 3 + na..i + 3 + na + nb]) as int))
  {
    MatchAtFound(s, i, na, nb);
  }

  lemma MatchAtFound(s: string, i: nat, na: nat, nb: nat)
    requires i + 1 + na + 2 + nb <= |s| && na >= 1 && nb >= 1 && s[i] == 'S'
    requires AllDigits(s[i + 1..i + 1 + na]) && !IsDigit(s[i + 1 + na])
    requires s[i + 1 + na] == ' ' && s[i + 2 + na] == 'E'
    requires AllDigits(s[i + 3 + na..i + 3 + na + nb])
    requires i + 3 + na + nb == |s| || !IsDigit(s[i + 3 + na + nb])
    ensures MatchAt(s, i) == Some((DigitsValue(s[i + 1..i + 1 + na]) as int, DigitsValue(s[i + 3 + na..i + 3 + na + nb]) as int))
  {
    DigitRunExact(s, i + 1, na);
    DigitRunExact(s, i + 3 + na, nb);
  }

  /** A text with no "S<digit>" has no match. */
  lemma {:induction false} NoEpisodeFound(s: string, i: nat)
    requires i <= |s|
    requires forall k :: i <= k < |s| - 1 ==> !(s[k] == 'S' && IsDigit(s[k + 1]))
    ensures SearchFrom(s, i).None?
    decreases |s| - i
  {
    if i < |s| {
      if s[i] == 'S' && i + 1 <= |s| {
        assert DigitRun(s, i + 1) == 0 by {
          if i + 1 < |s| { assert !IsDigit(s[i + 1]); }
        }
      }
      NoEpisodeFound(s, i + 1);
    }
  }

  // ---------------------------------------------------------------- scrape_mediux

  const MediuxBase := "https://mediux.pro/_next/image?url=https%3A%2F%2Fapi.mediux.pro%2Fassets%2F"
  const QualitySuffix := "&w=3840&q=80"

  /** A script that holds poster data. */
  predicate IsPosterData(text: string) {
    Contains(text, "filename_disk") && Contains(text, "title") && !Contains(text, "Set Link\\")
  }

  /** The first loop of `scrape_mediux`: the poster data, in page order. */
  function Selected(scripts: seq<string>): (r: seq<string>)
    ensures |r| <= |scripts|
    ensures forall k :: 0 <= k < |r| ==> IsPosterData(r[k])
  {
    if scripts == [] then []
    else Selected(scripts[..|scripts| - 1]) + (if IsPosterData(scripts[|scripts| - 1]) then [scripts[|scripts| - 1]] else [])
  }

  /** Every poster-data script is kept, and nothing else. */
  lemma {:induction false} SelectedMembers(scripts: seq<string>, text: string)
    ensures text in Selected(scripts) <==> text in scripts && IsPosterData(text)
  {
    if scripts != [] {
      var init := scripts[..|scripts| - 1];
      SelectedMembers(init, text);
      assert scripts == init + [scripts[|scripts| - 1]];
    }
  }

  datatype Kind = ShowKind | MovieKind

  /** The media type: "Show" exactly when some poster data mentions "Season",
      "Movie" otherwise, and None when there is no poster data. */
  function MediaTypeOf(data: seq<string>): Option<Kind> {
    if data == [] then None
    else if exists k :: 0 <= k < |data| && Contains(data[k], "Season") then Some(ShowKind)
    else Some(MovieKind)
  }

  /** The second loop of `scrape_mediux`, which stops at the first "Season". */
  method MediaType(data: seq<string>) returns (t: Option<Kind>)
    ensures t == MediaTypeOf(data)
  {
    t := None;
    var i := 0;
    while i < |data|
      invariant i <= |data|
      invariant forall k :: 0 <= k < i ==> !Contains(data[k], "Season")
      invariant t == if i == 0 then None else Some(MovieKind)
    {
      if Contains(data[i], "Season") {
        t := Some(ShowKind);
        return;
      }
      t := Some(MovieKind);
      i := i + 1;
    }
  }

  /** `data.split('title')[1].split('"')[2]`. */
  function Metadata(data: string): Result<string> {
    match Piece(Split(data, "title"), 1)
    case Failure(e) => Failure(e)
    case Success(after) => Piece(Split(after, "\""), 2)
  }

  /** `data.split('filename_disk')[1].split('"')[2].split("\\")[0]`. */
  function ImageStub(data: string): Result<string> {
    match Piece(Split(data, "filename_disk"), 1)
    case Failure(e) => Failure(e)
    case Success(after) =>
      match Piece(Split(after, "\""), 2)
      case Failure(e) => Failure(e)
      case Success(quoted) => Success(Split(quoted, "\\")[0])
  }

  /** A show entry's season and episode. */
  datatype Ident = Ident(season: Season, episode: Episode)

  /** The identifier segment: "S<a> E<b>" gives (a, b); else a "Season N"
      gives (N, "Cover"); else "Backdrop" gives ("Backdrop", None); any other
      segment assigns nothing, so the previous entry's values stay (None
      before any: the names are unbound). */
  function SegmentIdent(identifier: string, carried: Option<Ident>): Result<Option<Ident>> {
    match SearchEpisode(identifier)
    case Some((a, b)) => Success(Some(Ident(SeasonNo(a), EpisodeNo(b))))
    case None =>
      if Contains(identifier, "Season") then
        match Piece(Split(identifier, "Season "), 1)
        case Failure(e) => Failure(e)
        case Success(after) =>
          match ParseInt(Split(after, "\\")[0])
          case None => Failure(ValueError("invalid literal for int() with base 10"))
          case Some(n) => Success(Some(Ident(SeasonNo(n), CoverEpisode)))
      else if Contains(identifier, "Backdrop") then Success(Some(Ident(BackdropSeason, NoEpisode)))
      else Success(carried)
  }

  /** The season and episode of a show entry: the second " - " segment
      decides; without " - " the entry is the show's cover. */
  function ShowIdent(metadata: string, carried: Option<Ident>): Result<Option<Ident>> {
    if Contains(metadata, " - ") then
      match Piece(Split(metadata, " - "), 1)
      case Failure(e) => Failure(e)
      case Success(identifier) => SegmentIdent(identifier, carried)
    else Success(Some(Ident(CoverSeason, NoEpisode)))
  }

  /** A show entry's title: before " (" and stripped, else before " -" and
      stripped, else before " \". */
  function ShowTitle(metadata: string): string {
    if Contains(metadata, " (") then Strip(Split(metadata, " (")[0])
    else if Contains(metadata, " -") then Strip(Split(metadata, " -")[0])
    else Split(metadata, " \\")[0]
  }

  /** A movie entry's title and the year text: a second " (" chunk of length
      at least 8 is folded back into the title. Without " (" the year is not
      assigned and keeps the previous entry's text. */
  function MovieTitle(metadata: string, carried: Option<string>): Result<(string, Option<string>)> {
    if Contains(metadata, " (") then
      var chunks := Split(metadata, " (");
      match Piece(chunks, 1)
      case Failure(e) => Failure(e)
      case Success(second) =>
        var title := if |second| >= 8 then chunks[0] + " (" + second else chunks[0];
        Success((title, Some(Split(Last(chunks), ")")[0])))
    else Success((Split(metadata, " \\")[0], carried))
  }

  /** `title.encode('utf-8').decode('unicode_escape')` for a title with "\u". */
  function Unescaped(title: string, unescape: string -> Result<string>): Result<string> {
    if Contains(title, "\\u") then unescape(title) else Success(title)
  }

  /** The variables one entry leaves to the next. */
  datatype Carry = Carry(ident: Option<Ident>, year: Option<string>)

  const StartCarry := Carry(None, None)

  const SeasonUnbound := NameError("local variable 'season' referenced before assignment")
  const YearUnbound := NameError("local variable 'year' referenced before assignment")

  function ShowStep(unescape: string -> Result<string>, c: Carry, acc: Posters, data: string, metadata: string)
    : Result<(Carry, Posters)>
  {
    match ShowIdent(metadata, c.ident)
    case Failure(e) => Failure(e)
    case Success(ident) =>
      match ImageStub(data)
      case Failure(e) => Failure(e)
      case Success(stub) =>
        match Unescaped(ShowTitle(metadata), unescape)
        case Failure(e) => Failure(e)
        case Success(title) =>
          match ident
          case None => Failure(SeasonUnbound)
          case Some(id) =>
            var p := ShowPoster(title, MediuxBase + stub + QualitySuffix, id.season, id.episode, "mediux");
            Success((c.(ident := ident), acc.(shows := acc.shows + [p])))
  }

  function MovieStep(unescape: string -> Result<string>, c: Carry, acc: Posters, data: string, metadata: string)
    : Result<(Carry, Posters)>
  {
    match MovieTitle(metadata, c.year)
    case Failure(e) => Failure(e)
    case Success((raw, year)) =>
      match ImageStub(data)
      case Failure(e) => Failure(e)
      case Success(stub) =>
        match Unescaped(raw, unescape)
        case Failure(e) => Failure(e)
        case Success(title) =>
          var url := MediuxBase + stub + QualitySuffix;
          if Contains(title, "Collection") then
            Success((c.(year := year), acc.(collections := acc.collections + [CollectionPoster(title, url, "mediux")])))
          else
            match year
            case None => Failure(YearUnbound)
            case Some(text) =>
              match ParseInt(text)
              case None => Failure(ValueError("invalid literal for int() with base 10"))
              case Some(n) => Success((c.(year := year), acc.(movies := acc.movies + [MoviePoster(title, url, n, "mediux")])))
  }

  /** One pass of the third loop of `scrape_mediux`. */
  function EntryStep(kind: Kind, unescape: string -> Result<string>, st: (Carry, Posters), data: string)
    : Result<(Carry, Posters)>
  {
    match Metadata(data)
    case Failure(e) => Failure(e)
    case Success(metadata) =>
      if kind == ShowKind then ShowStep(unescape, st.0, st.1, data, metadata)
      else MovieStep(unescape, st.0, st.1, data, metadata)
  }

  function Entries(kind: Kind, unescape: string -> Result<string>, data: seq<string>): Result<(Carry, Posters)> {
    if data == [] then Success((StartCarry, NoPosters))
    else
      match Entries(kind, unescape, data[..|data| - 1])
      case Failure(e) => Failure(e)
      case Success(st) => EntryStep(kind, unescape, st, data[|data| - 1])
  }

  /** What `scrape_mediux` returns for the page's script texts. */
  function MediuxSpec(scripts: seq<string>, unescape: string -> Result<string>): Result<Posters> {
    var data := Selected(scripts);
    match MediaTypeOf(data)
    case None => Success(NoPosters)
    case Some(kind) =>
      match Entries(kind, unescape, data)
      case Failure(e) => Failure(e)
      case Success(st) => Success(st.1)
  }

  lemma {:induction false} EntriesFailurePersists(kind: Kind, unescape: string -> Result<string>, data: seq<string>, i: nat)
    requires i <= |data| && Entries(kind, unescape, data[..i]).Failure?
    ensures Entries(kind, unescape, data) == Entries(kind, unescape, data[..i])
    decreases |data| - i
  {
    if i < |data| {
      TakeSnoc(data, i);
      EntriesFailurePersists(kind, unescape, data, i + 1);
    } else {
      assert data[..i] == data;
    }
  }

  /** `scrape_mediux`. */
  method ScrapeMediux(scripts: seq<string>, unescape: string -> Result<string>) returns (r: Result<Posters>)
    ensures r == MediuxSpec(scripts, unescape)
  {
    var data: seq<string> := [];
    for i := 0 to |scripts|
      invariant data == Selected(scripts[..i])
    {
      TakeSnoc(scripts, i);
      if IsPosterData(scripts[i]) {
        data := data + [scripts[i]];
      }
    }
    TakeAll(scripts);
    var mediaType := MediaType(data);
    if mediaType.None? {
      return Success(NoPosters);
    }
    var kind := mediaType.value;
    var carry := StartCarry;
    var movies, shows, collections := [], [], [];
    for i := 0 to |data|
      invariant Entries(kind, unescape, data[..i]) == Success((carry, Posters(movies, shows, collections)))
    {
      TakeSnoc(data, i);
      var step := EntryStep(kind, unescape, (carry, Posters(movies, shows, collections)), data[i]);
      if step.Failure? {
        EntriesFailurePersists(kind, unescape, data, i + 1);
        return Failure(step.error);
      }
      carry := step.value.0;
      movies, shows, collections := step.value.1.movies, step.value.1.shows, step.value.1.collections;
    }
    TakeAll(data);
    return Success(Posters(movies, shows, collections));
  }

  // ---------------------------------------------------------------- MediUX lemmas

  /** The media type is fixed before the entries are read, so a set gives
      shows only or movies and collections only. */
  lemma {:induction false} KindSeparates(kind: Kind, unescape: string -> Result<string>, data: seq<string>)
    ensures Entries(kind, unescape, data).Success? ==>
              var ps := Entries(kind, unescape, data).value.1;
              if kind == ShowKind then ps.movies == [] && ps.collections == [] else ps.shows == []
  {
    if data != [] {
      KindSeparates(kind, unescape, data[..|data| - 1]);
      match Entries(kind, unescape, data[..|data| - 1])
      case Success(st) => StepKeepsKind(kind, unescape, st, data[|data| - 1]);
      case Failure(_) =>
    }
  }

  predicate OfKindOnly(kind: Kind, ps: Posters) {
    if kind == ShowKind then ps.movies == [] && ps.collections == [] else ps.shows == []
  }

  lemma StepKeepsKind(kind: Kind, unescape: string -> Result<string>, st: (Carry, Posters), data: string)
    requires OfKindOnly(kind, st.1)
    ensures EntryStep(kind, unescape, st, data).Success? ==> OfKindOnly(kind, EntryStep(kind, unescape, st, data).value.1)
  {
    match Metadata(data)
    case Failure(_) =>
    case Success(metadata) =>
      if kind == ShowKind {
        ShowStepKeepsKind(unescape, st.0, st.1, data, metadata);
      } else {
        MovieStepKeepsKind(unescape, st.0, st.1, data, metadata);
      }
  }

  lemma ShowStepKeepsKind(unescape: string -> Result<string>, c: Carry, acc: Posters, data: string, metadata: string)
    requires acc.movies == [] && acc.collections == []
    ensures ShowStep(unescape, c, acc, data, metadata).Success? ==>
              var ps := ShowStep(unescape, c, acc, data, metadata).value.1;
              ps.movies == [] && ps.collections == []
  {
  }

  lemma MovieStepKeepsKind(unescape: string -> Result<string>, c: Carry, acc: Posters, data: string, metadata: string)
    requires acc.shows == []
    ensures MovieStep(unescape, c, acc, data, metadata).Success? ==> MovieStep(unescape, c, acc, data, metadata).value.1.shows == []
  {
  }

  /** Movie-set titles with "Collection" become collection posters, all
      others movie posters. */
  lemma {:induction false} CollectionsByTitle(unescape: string -> Result<string>, data: seq<string>)
    ensures Entries(MovieKind, unescape, data).Success? ==>
              TitledByKind(Entries(MovieKind, unescape, data).value.1)
  {
    if data != [] {
      CollectionsByTitle(unescape, data[..|data| - 1]);
      match Entries(MovieKind, unescape, data[..|data| - 1])
      case Success(st) => StepTitles(unescape, st, data[|data| - 1]);
      case Failure(_) =>
    }
  }

  predicate TitledByKind(ps: Posters) {
    (forall k :: 0 <= k < |ps.collections| ==> Contains(ps.collections[k].title, "Collection")) &&
    (forall k :: 0 <= k < |ps.movies| ==> !Contains(ps.movies[k].title, "Collection"))
  }

  lemma StepTitles(unescape: string -> Result<string>, st: (Carry, Posters), data: string)
    requires TitledByKind(st.1)
    ensures EntryStep(MovieKind, unescape, st, data).Success? ==> TitledByKind(EntryStep(MovieKind, unescape, st, data).value.1)
  {
    match Metadata(data)
    case Failure(_) =>
    case Success(metadata) => MovieStepTitles(unescape, st.0, st.1, data, metadata);
  }

  lemma MovieStepTitles(unescape: string -> Result<string>, c: Carry, acc: Posters, data: string, metadata: string)
    requires TitledByKind(acc)
    ensures MovieStep(unescape, c, acc, data, metadata).Success? ==> TitledByKind(MovieStep(unescape, c, acc, data, metadata).value.1)
  {
    match MovieTitle(metadata, c.year)
    case Failure(_) =>
    case Success((raw, year)) =>
      match ImageStub(data)
      case Failure(_) =>
      case Success(stub) =>
        match Unescaped(raw, unescape)
        case Failure(_) =>
        case Success(title) =>
          var url := MediuxBase + stub + QualitySuffix;
          if Contains(title, "Collection") {
            AddTitled(acc, title, url, 0, true);
          } else {
            forall n: int ensures TitledByKind(acc.(movies := acc.movies + [MoviePoster(title, url, n, "mediux")])) {
              AddTitled(acc, title, url, n, false);
            }
          }
  }

  lemma AddTitled(acc: Posters, title: string, url: string, year: int, collection: bool)
    requires TitledByKind(acc) && (collection <==> Contains(title, "Collection"))
    ensures collection ==> TitledByKind(acc.(collections := acc.collections + [CollectionPoster(title, url, "mediux")]))
    ensures !collection ==> TitledByKind(acc.(movies := acc.movies + [MoviePoster(title, url, year, "mediux")]))
  {
  }

  /** An identifier "S<a> E<b>" names episode b of season a. */
  lemma EpisodeIdent(a: string, b: string, carried: Option<Ident>)
    requires |a| >= 1 && AllDigits(a) && |b| >= 1 && AllDigits(b)
    ensures SegmentIdent("S" + a + " E" + b, carried) ==
            Success(Some(Ident(SeasonNo(DigitsValue(a) as int), EpisodeNo(DigitsValue(b) as int))))
  {
    EpisodeFound("", a, b, "");
    assert "" + "S" + a + " E" + b + "" == "S" + a + " E" + b;
  }

  /** An identifier "Season N" is the cover of season N. */
  lemma SeasonIdent(s: string, d: string, carried: Option<Ident>)
    requires s == "Season " + d && |d| >= 1 && AllDigits(d)
    ensures SegmentIdent(s, carried) == Success(Some(Ident(SeasonNo(DigitsValue(d) as int), CoverEpisode)))
  {
    SeasonNoMatch(s, d);
    SeasonSplit(s, d);
    assert '\\' !in d by {
      forall k | 0 <= k < |d| ensures d[k] != '\\' { assert IsDigit(d[k]); }
    }
    SplitNoChar(d, '\\');
    assert "\\" == ['\\'];
    ParseDigits(d);
    SeasonIdentOfPieces(s, d, DigitsValue(d), carried);
  }

  lemma SeasonIdentOfPieces(s: string, after: string, n: int, carried: Option<Ident>)
    requires SearchEpisode(s).None? && Contains(s, "Season") && Split(s, "Season ") == ["", after]
    requires ParseInt(Split(after, "\\")[0]) == Some(n)
    ensures SegmentIdent(s, carried) == Success(Some(Ident(SeasonNo(n), CoverEpisode)))
  {
  }

  /** "Season N" holds no "S<a> E<b>": its only 'S' is followed by 'e'. */
  lemma SeasonNoMatch(s: string, d: string)
    requires s == "Season " + d && AllDigits(d)
    ensures SearchEpisode(s).None?
  {
    assert s[1] == 'e' && s[2] == 'a' && s[3] == 's' && s[4] == 'o' && s[5] == 'n' && s[6] == ' ';
    assert DigitRun(s, 1) == 0;
    forall k | 1 <= k < |s|
      ensures s[k] != 'S'
    {
      if k >= 7 {
        assert s[k] == d[k - 7] && IsDigit(d[k - 7]);
      }
    }
    SkipNoS(s, 1, |s|);
  }

  /** "Season N" contains "Season" and splits at "Season " into "" and N. */
  lemma SeasonSplit(s: string, d: string)
    requires s == "Season " + d && AllDigits(d)
    ensures Contains(s, "Season") && Split(s, "Season ") == ["", d]
  {
    assert s[..6] == "Season";
    assert IsAt(s, "Season", 0);
    FindFromFirst(s, "Season", 0, 0);
    assert 'S' !in d by {
      forall k | 0 <= k < |d| ensures d[k] != 'S' { assert IsDigit(d[k]); }
    }
    MissingCharNotContained(d, "Season ", 'S');
    SplitHead(d, "Season ");
    assert s == "" + "Season " + d;
    SplitAfter("", "Season ", d);
  }

  /** The identifier "Backdrop" is the show's backdrop. */
  lemma BackdropIdent(s: string, carried: Option<Ident>)
    requires s == "Backdrop"
    ensures SegmentIdent(s, carried) == Success(Some(Ident(BackdropSeason, NoEpisode)))
  {
    NoEpisodeFound(s, 0);
    MissingCharNotContained(s, "Season", 'S');
    assert Contains(s, "Backdrop") by {
      assert IsAt(s, "Backdrop", 0);
      FindFromFirst(s, "Backdrop", 0, 0);
    }
  }

  /** An entry without " - " is the show's cover. */
  lemma CoverIdent(metadata: string, carried: Option<Ident>)
    requires !Contains(metadata, " - ")
    ensures ShowIdent(metadata, carried) == Success(Some(Ident(CoverSeason, NoEpisode)))
  {
  }

  /** "T - identifier" with the identifier as the second segment. */
  lemma IdentOfSegment(t: string, identifier: string, carried: Option<Ident>)
    requires !Contains(t, " - ") && !EndsWith(t, " -") && !Contains(identifier, " - ")
    ensures ShowIdent(t + " - " + identifier, carried) == SegmentIdent(identifier, carried)
  {
    DashSplitAfter(t, identifier);
    SplitHead(identifier, " - ");
    SplitHead(t + " - " + identifier, " - ");
  }

  /** A segment naming no season, episode or backdrop leaves the previous
      entry's season and episode in place. */
  lemma SegmentCarries(identifier: string, carried: Option<Ident>)
    requires SearchEpisode(identifier).None? && !Contains(identifier, "Season") && !Contains(identifier, "Backdrop")
    ensures SegmentIdent(identifier, carried) == Success(carried)
  {
  }

  /** The title of "T (rest" is T stripped. */
  lemma ShowTitleParen(t: string, rest: string)
    requires !Contains(t, " (")
    ensures ShowTitle(t + " (" + rest) == Strip(t)
  {
    SplitParen(t, rest);
    SplitHead(t + " (" + rest, " (");
  }

  /** "T (X (tail": the second chunk X is folded into the title when it is at
      least 8 long; the year is the tail up to ")". */
  lemma MovieTitleFold(t: string, x: string, tail: string, carried: Option<string>)
    requires !Contains(t, " (") && !Contains(x, " (") && '(' !in tail
    ensures MovieTitle(t + " (" + x + " (" + tail, carried) ==
            Success((if |x| >= 8 then t + " (" + x else t, Some(Split(tail, ")")[0])))
  {
    var m := t + " (" + x + " (" + tail;
    PosterDb.ThreeChunks(t, x, tail);
    SplitHead(m, " (");
    assert Last([t, x, tail]) == tail;
  }

  // ---------------------------------------------------------------- uploads

  function Art(url: string): Image {
    Image(Some(url), None)
  }

  /** `show.season(key)` when the show has that season. */
  function SeasonTarget(show: Item, key: SeasonKey, plex: Plex): Option<Target> {
    if (show, key) in plex.seasons then Some(SeasonOf(show, key)) else None
  }

  /** The target `upload_tv_poster` picks in the found show; None when a
      lookup raises or no branch binds `upload_target` (a negative season),
      which the handlers turn into a skip. */
  function TvTarget(p: ShowPoster, show: Item, plex: Plex): Option<Target> {
    match p.season
    case CoverSeason => Some(Whole(show))
    case BackdropSeason => Some(Whole(show))
    case SeasonNo(n) =>
      if n == 0 then SeasonTarget(show, SeasonTitle("Specials"), plex)
      else if n >= 1 then
        match p.episode
        case EpisodeNo(e) => if (show, n, e) in plex.episodes then Some(EpisodeOf(show, n, e)) else None
        case _ => SeasonTarget(show, SeasonNumber(n), plex)
      else None
  }

  /** The upload call: `uploadArt` for a backdrop, `uploadPoster` otherwise. */
  function TvCall(p: ShowPoster, target: Target): Event {
    if p.season == BackdropSeason then ArtUpload(target, Art(p.url)) else PosterUpload(target, Art(p.url))
  }

  /** `upload_tv_poster`: the show by title, the target in it, the upload,
      and the 6-second pause after a ThePosterDB upload that did not raise. */
  function TvPosterEvents(p: ShowPoster, tv: Section, plex: Plex): seq<Event> {
    var q := Titled(p.title, None);
    if q !in tv.lookup then []
    else
      match TvTarget(p, tv.lookup[q], plex)
      case None => []
      case Some(target) =>
        var call := TvCall(p, target);
        if call in plex.refused then [call]
        else [call] + (if p.source == "posterdb" then [Pause(6)] else [])
  }

  /** Where a found show's poster goes: "Cover" to the show, 0 to the season
      titled "Specials", "Backdrop" to the show with `uploadArt`, a season
      N >= 1 with episode "Cover" or None to season N, and an episode number
      to that episode; a season below 0 nowhere. */
  lemma TvTargets(p: ShowPoster, show: Item, plex: Plex)
    ensures match p.season
            case CoverSeason => TvTarget(p, show, plex) == Some(Whole(show))
            case BackdropSeason => TvTarget(p, show, plex) == Some(Whole(show)) && TvCall(p, Whole(show)).ArtUpload?
            case SeasonNo(n) =>
              (n == 0 ==>
                 TvTarget(p, show, plex) ==
                 if (show, SeasonTitle("Specials")) in plex.seasons then Some(SeasonOf(show, SeasonTitle("Specials"))) else None) &&
              (n >= 1 && !p.episode.EpisodeNo? ==>
                 TvTarget(p, show, plex) ==
                 if (show, SeasonNumber(n)) in plex.seasons then Some(SeasonOf(show, SeasonNumber(n))) else None) &&
              (n >= 1 && p.episode.EpisodeNo? ==>
                 TvTarget(p, show, plex) ==
                 if (show, n, p.episode.n) in plex.episodes then Some(EpisodeOf(show, n, p.episode.n)) else None) &&
              (n < 0 ==> TvTarget(p, show, plex).None?)
    ensures p.season != BackdropSeason ==> forall t :: TvCall(p, t).PosterUpload?
  {
  }

  /** Only ThePosterDB uploads pause; a MediUX poster's events hold no pause. */
  lemma PauseOnlyForPosterdb(p: ShowPoster, tv: Section, plex: Plex)
    ensures Pause(6) in TvPosterEvents(p, tv, plex) <==>
            p.source == "posterdb" && |TvPosterEvents(p, tv, plex)| == 2
    ensures |TvPosterEvents(p, tv, plex)| <= 2
  {
  }

  /** `upload_movie_poster`: the movie by title and year, the upload, and the
      pause; a failing lookup or upload is caught and skips the rest. */
  function MoviePosterEvents(p: MoviePoster, movies: Section, plex: Plex): seq<Event> {
    var q := Titled(p.title, Some(p.year));
    if q !in movies.lookup then []
    else
      var call := PosterUpload(Whole(movies.lookup[q]), Art(p.url));
      if call in plex.refused then [call] else [call, Pause(6)]
  }

  /** The first collection titled exactly `title`. */
  function FirstTitled(cs: seq<Item>, title: string): (r: Option<nat>)
    ensures r.Some? ==> r.value < |cs| && cs[r.value].title == title &&
                        forall k :: 0 <= k < r.value ==> cs[k].title != title
    ensures r.None? ==> forall k :: 0 <= k < |cs| ==> cs[k].title != title
  {
    if cs == [] then None
    else if cs[0].title == title then Some(0)
    else
      match FirstTitled(cs[1..], title)
      case None => None
      case Some(k) => Some(k + 1)
  }

  /** `movies.collections()` raised: the handler prints, and the loop then
      reads the name it never bound. */
  const CollectionsUnbound := NameError("local variable 'movie_collections' referenced before assignment")

  /** An upload call that raised outside any handler. */
  const UploadRaised := OSError("uploadPoster raised")

  /** What `upload_collection_poster` does: one upload, to the first
      collection with exactly the poster's title, then the pause; nothing
      when none has it. Its upload call and the loop are outside any
      handler, so their exceptions escape. */
  function CollectionOutcome(title: string, url: string, movies: Section, plex: Plex): Result<seq<Event>> {
    match movies.collections
    case None => Failure(CollectionsUnbound)
    case Some(cs) =>
      match FirstTitled(cs, title)
      case None => Success([])
      case Some(k) =>
        var call := PosterUpload(Whole(cs[k]), Art(url));
        if call in plex.refused then Failure(UploadRaised) else Success([call, Pause(6)])
  }

  /** `upload_collection_poster`, with its found flag and `break`. */
  method UploadCollectionPoster(title: string, url: string, movies: Section, plex: Plex) returns (r: Result<seq<Event>>)
    ensures r == CollectionOutcome(title, url, movies, plex)
  {
    if movies.collections.None? {
      return Failure(CollectionsUnbound);
    }
    var cs := movies.collections.value;
    var found := false;
    var events: seq<Event> := [];
    var i := 0;
    while i < |cs|
      invariant i <= |cs| && !found && events == []
      invariant forall k :: 0 <= k < i ==> cs[k].title != title
    {
      if cs[i].title == title {
        var call := PosterUpload(Whole(cs[i]), Art(url));
        if call in plex.refused {
          return Failure(UploadRaised);
        }
        events := [call, Pause(6)];
        found := true;
        break;
      }
      i := i + 1;
    }
    if !found {
      return Success([]);
    }
    return Success(events);
  }

  // ---------------------------------------------------------------- scrape and set_posters

  datatype Via = PosterDbVia | MediuxVia

  const NotFound := "Poster set not found. Check the link you are inputting."

  /** Which scraper `scrape` calls: ThePosterDB for its set or user pages,
      MediUX for its sets, and an exit otherwise. */
  function Route(url: string): (r: Result<Via>)
    ensures r == Success(PosterDbVia) <==> Contains(url, "theposterdb.com") && (Contains(url, "set") || Contains(url, "user"))
    ensures r == Success(MediuxVia) <==>
              !(Contains(url, "theposterdb.com") && (Contains(url, "set") || Contains(url, "user"))) &&
              Contains(url, "mediux.pro") && Contains(url, "sets")
    ensures r.Failure? ==> r.error == SystemExit(NotFound)
  {
    if Contains(url, "theposterdb.com") && (Contains(url, "set") || Contains(url, "user")) then Success(PosterDbVia)
    else if Contains(url, "mediux.pro") && Contains(url, "sets") then Success(MediuxVia)
    else Failure(SystemExit(NotFound))
  }

  /** What `scrape` returns or raises for a URL. */
  function ScrapeSpec(url: string, fetch: string -> Response, unescape: string -> Result<string>): Result<Posters> {
    match Route(url)
    case Failure(e) => Failure(e)
    case Success(via) =>
      match CookSoup(url, fetch)
      case Failure(e) => Failure(e)
      case Success(soup) =>
        if via == PosterDbVia then PosterdbSpec(soup.grid) else MediuxSpec(soup.scripts, unescape)
  }

  /** `scrape`. */
  method Scrape(url: string, fetch: string -> Response, unescape: string -> Result<string>) returns (r: Result<Posters>)
    ensures r == ScrapeSpec(url, fetch, unescape)
  {
    var via := Route(url);
    if via.Failure? {
      return Failure(via.error);
    }
    var soup := CookSoup(url, fetch);
    if soup.Failure? {
      return Failure(soup.error);
    }
    if via.value == PosterDbVia {
      r := ScrapePosterdb(soup.value.grid);
    } else {
      r := ScrapeMediux(soup.value.scripts, unescape);
    }
  }

  /** The collection uploads in turn, up to the first that raises: the
      events so far and the exception. */
  function CollectionsRun(cs: seq<CollectionPoster>, movies: Section, plex: Plex): (seq<Event>, Option<Error>) {
    if cs == [] then ([], None)
    else
      var prev := CollectionsRun(cs[..|cs| - 1], movies, plex);
      if prev.1.Some? then prev
      else
        match CollectionOutcome(cs[|cs| - 1].title, cs[|cs| - 1].url, movies, plex)
        case Failure(e) => (prev.0, Some(e))
        case Success(events) => (prev.0 + events, None)
  }

  function MoviesRun(ms: seq<MoviePoster>, movies: Section, plex: Plex): seq<Event> {
    if ms == [] then [] else MoviesRun(ms[..|ms| - 1], movies, plex) + MoviePosterEvents(ms[|ms| - 1], movies, plex)
  }

  function ShowsRun(ss: seq<ShowPoster>, tv: Section, plex: Plex): seq<Event> {
    if ss == [] then [] else ShowsRun(ss[..|ss| - 1], tv, plex) + TvPosterEvents(ss[|ss| - 1], tv, plex)
  }

  /** What `set_posters` does for one URL: the uploads, collections first,
      then movies, then shows, and the exception that stopped it, if any. */
  function SetPostersSpec(url: string, fetch: string -> Response, unescape: string -> Result<string>,
                          tv: Section, movies: Section, plex: Plex): (seq<Event>, Option<Error>)
  {
    match ScrapeSpec(url, fetch, unescape)
    case Failure(e) => ([], Some(e))
    case Success(ps) =>
      var cr := CollectionsRun(ps.collections, movies, plex);
      if cr.1.Some? then cr
      else (cr.0 + MoviesRun(ps.movies, movies, plex) + ShowsRun(ps.shows, tv, plex), None)
  }

  /** `set_posters`. */
  method SetPosters(url: string, fetch: string -> Response, unescape: string -> Result<string>,
                    tv: Section, movies: Section, plex: Plex)
    returns (events: seq<Event>, error: Option<Error>)
    ensures (events, error) == SetPostersSpec(url, fetch, unescape, tv, movies, plex)
  {
    var scraped := Scrape(url, fetch, unescape);
    if scraped.Failure? {
      return [], Some(scraped.error);
    }
    var ps := scraped.value;
    events, error := SetCollections(ps.collections, movies, plex);
    if error.Some? {
      return;
    }
    var movieEvents := SetMovies(ps.movies, movies, plex);
    var showEvents := SetShows(ps.shows, tv, plex);
    events := events + movieEvents + showEvents;
  }

  /** The first loop of `set_posters`. */
  method SetCollections(cs: seq<CollectionPoster>, movies: Section, plex: Plex) returns (events: seq<Event>, error: Option<Error>)
    ensures (events, error) == CollectionsRun(cs, movies, plex)
  {
    events := [];
    for i := 0 to |cs|
      invariant CollectionsRun(cs[..i], movies, plex) == (events, None)
    {
      TakeSnoc(cs, i);
      var outcome := UploadCollectionPoster(cs[i].title, cs[i].url, movies, plex);
      if outcome.Failure? {
        CollectionsStop(cs, movies, plex, i + 1);
        return events, Some(outcome.error);
      }
      events := events + outcome.value;
    }
    TakeAll(cs);
    error := None;
  }

  /** The second loop of `set_posters`. */
  method SetMovies(ms: seq<MoviePoster>, movies: Section, plex: Plex) returns (events: seq<Event>)
    ensures events == MoviesRun(ms, movies, plex)
  {
    events := [];
    for i := 0 to |ms|
      invariant events == MoviesRun(ms[..i], movies, plex)
    {
      TakeSnoc(ms, i);
      events := events + MoviePosterEvents(ms[i], movies, plex);
    }
    TakeAll(ms);
  }

  /** The third loop of `set_posters`. */
  method SetShows(ss: seq<ShowPoster>, tv: Section, plex: Plex) returns (events: seq<Event>)
    ensures events == ShowsRun(ss, tv, plex)
  {
    events := [];
    for i := 0 to |ss|
      invariant events == ShowsRun(ss[..i], tv, plex)
    {
      TakeSnoc(ss, i);
      events := events + TvPosterEvents(ss[i], tv, plex);
    }
    TakeAll(ss);
  }

  /** A collection upload that raises ends the run of collections. */
  lemma {:induction false} CollectionsStop(cs: seq<CollectionPoster>, movies: Section, plex: Plex, i: nat)
    requires i <= |cs| && CollectionsRun(cs[..i], movies, plex).1.Some?
    ensures CollectionsRun(cs, movies, plex) == CollectionsRun(cs[..i], movies, plex)
    decreases |cs| - i
  {
    if i < |cs| {
      TakeSnoc(cs, i);
      CollectionsStop(cs, movies, plex, i + 1);
    } else {
      assert cs[..i] == cs;
    }
  }

  /** Art uploads come from backdrop posters only: movies and collections use
      `uploadPoster`, and so does every show poster but a backdrop. */
  lemma {:induction false} ArtOnlyForBackdrops(ss: seq<ShowPoster>, tv: Section, plex: Plex)
    ensures forall e :: e in ShowsRun(ss, tv, plex) && e.ArtUpload? ==>
              exists k :: 0 <= k < |ss| && ss[k].season == BackdropSeason
  {
    if ss != [] {
      var init := ss[..|ss| - 1];
      ArtOnlyForBackdrops(init, tv, plex);
      forall e | e in ShowsRun(ss, tv, plex) && e.ArtUpload?
        ensures exists k :: 0 <= k < |ss| && ss[k].season == BackdropSeason
      {
        if e in ShowsRun(init, tv, plex) {
          var k :| 0 <= k < |init| && init[k].season == BackdropSeason;
          assert ss[k] == init[k];
        } else {
          assert ss[|ss| - 1].season == BackdropSeason;
        }
      }
    }
  }

  /** No art upload for a movie. */
  lemma {:induction false} MoviesUsePosters(ms: seq<MoviePoster>, movies: Section, plex: Plex)
    ensures forall e :: e in MoviesRun(ms, movies, plex) ==> e.PosterUpload? || e == Pause(6)
  {
    if ms != [] {
      MoviesUsePosters(ms[..|ms| - 1], movies, plex);
    }
  }
}
