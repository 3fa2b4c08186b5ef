/** Reading ThePosterDB set and user pages (plex_poster_set_helper.py:638-717).
    The poster grid arrives as abstract cards: the tooltip kind, the
    poster id and the caption text of each grid cell. */
module PosterDb {
  import opened Wrappers
  import opened Seqs
  import opened PyStr
  import opened Media

  /** One cell of the poster grid. */
  datatype Card = Card(kind: string, posterId: string, caption: string)

  /** The three lists a scraper returns, in the order they are filled. */
  datatype Scraped = Scraped(movies: seq<Meta>, shows: seq<Meta>, collections: seq<Meta>)

  /** Every scraped poster is fresh. */
  predicate AllFresh(sc: Scraped) {
    (forall k :: 0 <= k < |sc.movies| ==> Fresh(sc.movies[k])) &&
    (forall k :: 0 <= k < |sc.shows| ==> Fresh(sc.shows[k])) &&
    (forall k :: 0 <= k < |sc.collections| ==> Fresh(sc.collections[k]))
  }

  const AssetsUrl := "https://theposterdb.com/api/assets/"

  function ShowMeta(title: string, url: string, season: Option<int>, year: Option<int>, cover: bool): Meta {
    Blank().(title := title, url := url, season := season, year := year, source := "posterdb", showCoverArt := cover)
  }

  function MovieMeta(title: string, url: string, year: int): Meta {
    Blank().(title := title, url := url, year := Some(year), source := "posterdb")
  }

  /** The year of a show caption: `int()` of the text between the first
      " (" and the next ")", or None when that raises. */
  function ShowYear(caption: string): Option<int> {
    var pieces := Split(caption, " (");
    if |pieces| >= 2 then ParseInt(Split(pieces[1], ")")[0]) else None
  }

  /** The season a show caption's last " - " segment names: "Specials" is
      0, "Season N" is N (where the subscript or the `int()` may raise),
      anything else none. */
  function SegmentSeason(segment: string): Result<Option<int>> {
    if segment == "Specials" then Success(Some(0))
    else if Contains(segment, "Season") then
      var words := Split(segment, " ");
      if |words| < 2 then Failure(IndexError("list index out of range"))
      else
        match ParseInt(words[1])
        case None => Failure(ValueError("invalid literal for int() with base 10"))
        case Some(n) => Success(Some(n))
    else Success(None)
  }

  /** A "Show" card: the title before the first " (", the year from
      `ShowYear`, and the season from the last " - " segment; without any
      " - " the card is the show's cover. */
  function ShowCard(url: string, caption: string): Result<Meta> {
    var title := Split(caption, " (")[0];
    var year := ShowYear(caption);
    if Contains(caption, " - ") then
      match SegmentSeason(Last(Split(caption, " - ")))
      case Success(season) => Success(ShowMeta(title, url, season, year, false))
      case Failure(e) => Failure(e)
    else Success(ShowMeta(title, url, None, year, true))
  }

  /** A "Movie" card: a second " (" chunk whose length is not 5 is folded
      back into the title; the year is `int()` of the last chunk's text
      before ")". A caption without " (" raises IndexError, a bad year
      ValueError. */
  function MovieCard(url: string, caption: string): Result<Meta> {
    var chunks := Split(caption, " (");
    if |chunks| < 2 then Failure(IndexError("list index out of range"))
    else
      var title := if |chunks[1]| != 5 then chunks[0] + " (" + chunks[1] else chunks[0];
      match ParseInt(Split(Last(chunks), ")")[0])
      case None => Failure(ValueError("invalid literal for int() with base 10"))
      case Some(y) => Success(MovieMeta(title, url, y))
  }

  /** A "Collection" card: the caption verbatim, no year. */
  function CollectionCard(url: string, caption: string): (r: Meta)
    ensures r.IsCollection() && r.title == caption && r.url == url
  {
    Blank().(title := caption, url := url, source := "posterdb")
  }

  /** The lists after one more card; other labels are ignored. */
  function AddCard(acc: Scraped, card: Card): Result<Scraped> {
    var url := AssetsUrl + card.posterId;
    if card.kind == "Show" then
      match ShowCard(url, card.caption)
      case Success(m) => Success(acc.(shows := acc.shows + [m]))
      case Failure(e) => Failure(e)
    else if card.kind == "Movie" then
      match MovieCard(url, card.caption)
      case Success(m) => Success(acc.(movies := acc.movies + [m]))
      case Failure(e) => Failure(e)
    else if card.kind == "Collection" then
      Success(acc.(collections := acc.collections + [CollectionCard(url, card.caption)]))
    else Success(acc)
  }

  /** The loop of `scrape_posterdb` over the cards, stopping at the first
      exception. */
  function ScrapeCards(cards: seq<Card>): Result<Scraped> {
    if cards == [] then Success(Scraped([], [], []))
    else
      match ScrapeCards(cards[..|cards| - 1])
      case Success(acc) => AddCard(acc, cards[|cards| - 1])
      case Failure(e) => Failure(e)
  }

  /** How many cards carry the tooltip label `kind`. */
  function KindCount(cards: seq<Card>, kind: string): nat {
    if cards == [] then 0
    else KindCount(cards[..|cards| - 1], kind) + (if cards[|cards| - 1].kind == kind then 1 else 0)
  }

  /** Every "Show" card gives one show, every "Movie" card one movie and
      every "Collection" card one collection; other cards give nothing. */
  lemma {:induction false} CardsSortedByKind(cards: seq<Card>)
    ensures ScrapeCards(cards).Success? ==>
              var sc := ScrapeCards(cards).value;
              |sc.shows| == KindCount(cards, "Show") && |sc.movies| == KindCount(cards, "Movie") &&
              |sc.collections| == KindCount(cards, "Collection")
  {
    if cards != [] {
      CardsSortedByKind(cards[..|cards| - 1]);
    }
  }

  /** An exception on a card is the exception of the whole grid. */
  lemma {:induction false} ScrapeFailurePersists(cards: seq<Card>, i: nat)
    requires i <= |cards| && ScrapeCards(cards[..i]).Failure?
    ensures ScrapeCards(cards) == ScrapeCards(cards[..i])
    decreases |cards| - i
  {
    if i < |cards| {
      TakeSnoc(cards, i);
      ScrapeFailurePersists(cards, i + 1);
    } else {
      assert cards[..i] == cards;
    }
  }

  /** `find_all` on the `None` that a page without the grid gives. */
  const NoGrid := AttributeError("'NoneType' object has no attribute 'find_all'")

  /** What `scrape_posterdb` returns for a page: the grid's cards, or the
      error of a page without one. */
  function PosterdbSpec(grid: Option<seq<Card>>): Result<Scraped> {
    if grid.None? then Failure(NoGrid) else ScrapeCards(grid.value)
  }

  /** The posters of any card grid are fresh. */
  lemma {:induction false} ScrapeCardsFresh(cards: seq<Card>)
    ensures ScrapeCards(cards).Success? ==> AllFresh(ScrapeCards(cards).value)
  {
    if cards != [] {
      ScrapeCardsFresh(cards[..|cards| - 1]);
      match ScrapeCards(cards[..|cards| - 1])
      case Success(acc) => AddCardFresh(acc, cards[|cards| - 1]);
      case Failure(_) =>
    }
  }

  lemma AddCardFresh(acc: Scraped, card: Card)
    requires AllFresh(acc)
    ensures AddCard(acc, card).Success? ==> AllFresh(AddCard(acc, card).value)
  {
    var url := AssetsUrl + card.posterId;
    if card.kind == "Show" {
      match ShowCard(url, card.caption)
      case Success(m) => ShowCardFresh(url, card.caption);
      case Failure(_) =>
    } else if card.kind == "Movie" {
      match MovieCard(url, card.caption)
      case Success(m) => MovieCardFresh(url, card.caption);
      case Failure(_) =>
    }
  }

  lemma ShowCardFresh(url: string, caption: string)
    ensures ShowCard(url, caption).Success? ==> Fresh(ShowCard(url, caption).value)
  {
  }

  lemma MovieCardFresh(url: string, caption: string)
    ensures MovieCard(url, caption).Success? ==> Fresh(MovieCard(url, caption).value)
  {
  }

  /** `scrape_posterdb`: the grid's cards sorted into movies, shows and
      collections in page order; a page without the grid raises. */
  method ScrapePosterdb(grid: Option<seq<Card>>) returns (r: Result<Scraped>)
    ensures r == PosterdbSpec(grid)
  {
    if grid.None? {
      return Failure(NoGrid);
    }
    var cards := grid.value;
    var movies, shows, collections := [], [], [];
    for i := 0 to |cards|
      invariant ScrapeCards(cards[..i]) == Success(Scraped(movies, shows, collections))
    {
      TakeSnoc(cards, i);
      var card := cards[i];
      var url := AssetsUrl + card.posterId;
      if card.kind == "Show" {
        var parsed := ShowCard(url, card.caption);
        if parsed.Failure? {
          ScrapeFailurePersists(cards, i + 1);
          return Failure(parsed.error);
        }
        shows := shows + [parsed.value];
      } else if card.kind == "Movie" {
        var parsed := MovieCard(url, card.caption);
        if parsed.Failure? {
          ScrapeFailurePersists(cards, i + 1);
          return Failure(parsed.error);
        }
        movies := movies + [parsed.value];
      } else if card.kind == "Collection" {
        collections := collections + [CollectionCard(url, card.caption)];
      }
    }
    TakeAll(cards);
    return Success(Scraped(movies, shows, collections));
  }

  // ---------------------------------------------------------------- caption lemmas

  /** The year chunk `YYYY)`: no '(' in it, and its text before ")" is YYYY. */
  lemma YearChunk(y: string, rest: string)
    requires |y| == 4 && AllDigits(y) && '(' !in rest
    ensures '(' !in y + ")" + rest
    ensures Split(y + ")" + rest, ")")[0] == y
    ensures ParseInt(y) == Some(DigitsValue(y) as int)
  {
    DigitsLack(y, ')');
    DigitsLack(y, '(');
    SplitAtChar(y, ')', rest);
    ConsIndex(y, Split(rest, ")"), 0);
    ParseDigits(y);
  }

  /** "T (YYYY)" with T free of " (": the title is T and the year YYYY, as
      for "Mad Max: Fury Road (2015)" or "(500) Days of Summer (2009)". */
  lemma MoviePlainCaption(url: string, t: string, y: string)
    requires !Contains(t, " (") && |y| == 4 && AllDigits(y)
    ensures MovieCard(url, t + " (" + y + ")") == Success(MovieMeta(t, url, DigitsValue(y)))
  {
    var tail := y + ")";
    var c := t + " (" + y + ")";
    assert c == t + " (" + tail;
    YearChunk(y, "");
    assert tail + "" == tail;
    TwoChunks(t, tail);
    var chunks := [t, tail];
    assert Last(chunks) == tail && |chunks[1]| == 5;
    MovieCardOfChunks(url, c, chunks, DigitsValue(y));
  }

  lemma TwoChunks(t: string, tail: string)
    requires !Contains(t, " (") && '(' !in tail
    ensures Split(t + " (" + tail, " (") == [t, tail]
  {
    NoParenSplit(tail);
    SplitParen(t, tail);
  }

  /** "T (X (YYYY)" where the second chunk X is not 5 long: X is folded back
      into the title, which becomes "T (X". */
  lemma MovieFoldedCaption(url: string, t: string, x: string, y: string)
    requires !Contains(t, " (") && !Contains(x, " (") && |x| != 5 && |y| == 4 && AllDigits(y)
    ensures MovieCard(url, t + " (" + x + " (" + y + ")") == Success(MovieMeta(t + " (" + x, url, DigitsValue(y)))
  {
    var tail := y + ")";
    var c := t + " (" + x + " (" + y + ")";
    assert c == t + " (" + x + " (" + tail;
    YearChunk(y, "");
    assert tail + "" == tail;
    ThreeChunks(t, x, tail);
    var chunks := [t, x, tail];
    assert Last(chunks) == tail;
    MovieCardOfChunks(url, c, chunks, DigitsValue(y));
  }

  /** `MovieCard` read off the caption's " (" chunks. */
  lemma MovieCardOfChunks(url: string, c: string, chunks: seq<string>, year: int)
    requires |chunks| >= 2 && Split(c, " (") == chunks
    requires ParseInt(Split(Last(chunks), ")")[0]) == Some(year)
    ensures MovieCard(url, c) ==
            Success(MovieMeta(if |chunks[1]| != 5 then chunks[0] + " (" + chunks[1] else chunks[0], url, year))
  {
  }

  lemma ThreeChunks(t: string, x: string, tail: string)
    requires !Contains(t, " (") && !Contains(x, " (") && '(' !in tail
    ensures Split(t + " (" + x + " (" + tail, " (") == [t, x, tail]
  {
    NoParenSplit(tail);
    SplitParen(x, tail);
    SplitParen(t, x + " (" + tail);
    assert t + " (" + x + " (" + tail == t + " (" + (x + " (" + tail);
  }

  /** A text whose only '(' is its first character has no " (". */
  lemma ParenOnlyFirst(t: string)
    requires |t| > 0 && '(' !in t[1..]
    ensures !Contains(t, " (")
  {
    ContainsIff(t, " (");
    forall i | 0 <= i <= |t|
      ensures !IsAt(t, " (", i)
    {
      if i + 2 <= |t| {
        assert t[i..i + 2][1] == t[1..][i];
      }
    }
  }

  lemma Year2009(y: string)
    requires y == "2009"
    ensures AllDigits(y) && DigitsValue(y) == 2009
  {
    assert AllDigits(y) by {
      forall k | 0 <= k < 4 ensures IsDigit(y[k]) { }
    }
    assert y[..3][..2][..1][..0] == [];
    assert DigitsValue(y[..3][..2][..1]) == 2;
    assert DigitsValue(y[..3][..2]) == 20;
    assert DigitsValue(y[..3]) == 200;
  }

  /** "(500) Days of Summer (2009)": the leading parenthesis is not preceded
      by a space, so the title keeps it. */
  lemma FiveHundredDays(url: string, t: string, y: string)
    requires t == "(500) Days of Summer" && y == "2009"
    ensures MovieCard(url, t + " (" + y + ")") == Success(MovieMeta(t, url, 2009))
  {
    FiveHundredTitle(t);
    Year2009(y);
    MoviePlainCaption(url, t, y);
  }

  lemma FiveHundredTitle(t: string)
    requires t == "(500) Days of Summer"
    ensures !Contains(t, " (")
  {
    var u := t[1..];
    assert u == "500) Days of Summer";
    assert forall k :: 0 <= k < |u| ==> u[k] != '(';
    ParenOnlyFirst(t);
  }

  /** The tail of a canonical show caption after "T (YYYY)". */
  datatype CaptionTail = CoverTail | SpecialsTail | SeasonTail(n: nat)

  function TailText(tail: CaptionTail): string {
    match tail
    case CoverTail => ""
    case SpecialsTail => " - Specials"
    case SeasonTail(n) => " - Season " + NatToStr(n)
  }

  function TailSeason(tail: CaptionTail): Option<int> {
    match tail
    case CoverTail => None
    case SpecialsTail => Some(0)
    case SeasonTail(n) => Some(n)
  }

  lemma NoParenInTail(tail: CaptionTail)
    ensures '(' !in TailText(tail)
    ensures tail.CoverTail? ==> TailText(tail) == ""
    ensures !tail.CoverTail? ==> TailText(tail) == " - " + Last([TailText(tail)])[3..]
  {
    if tail.SeasonTail? {
      var d := NatToStr(tail.n);
      assert forall k :: 0 <= k < |d| ==> d[k] != '(' by {
        forall k | 0 <= k < |d| ensures d[k] != '(' { assert IsDigit(d[k]); }
      }
    }
  }

  /** The segment after " - " in a canonical tail, and the season it names. */
  lemma TailSegment(tail: CaptionTail)
    requires !tail.CoverTail?
    ensures TailText(tail) == " - " + TailText(tail)[3..]
    ensures !Contains(TailText(tail)[3..], " - ")
    ensures SegmentSeason(TailText(tail)[3..]) == Success(TailSeason(tail))
  {
    if tail.SpecialsTail? {
      assert TailText(tail)[3..] == "Specials";
      SpecialsSegment();
    } else {
      assert TailText(tail) == " - " + ("Season " + NatToStr(tail.n));
      assert TailText(tail)[3..] == "Season " + NatToStr(tail.n);
      SeasonSegment(tail.n);
    }
  }

  lemma SpecialsSegment()
    ensures !Contains("Specials", " - ")
    ensures SegmentSeason("Specials") == Success(Some(0))
  {
    MissingCharNotContained("Specials", " - ", '-');
  }

  /** "Season N" names season N. */
  lemma SeasonSegment(n: nat)
    ensures !Contains("Season " + NatToStr(n), " - ")
    ensures SegmentSeason("Season " + NatToStr(n)) == Success(Some(n as int))
  {
    var d := NatToStr(n);
    var seg := "Season " + d;
    assert forall k :: 0 <= k < |d| ==> d[k] != '-' && d[k] != ' ' by {
      forall k | 0 <= k < |d| ensures d[k] != '-' && d[k] != ' ' { assert IsDigit(d[k]); }
    }
    assert '-' !in seg;
    MissingCharNotContained(seg, " - ", '-');
    assert seg != "Specials" by {
      assert seg[1] == 'e' && "Specials"[1] == 'p';
    }
    assert Contains(seg, "Season") by {
      assert seg[..6] == "Season";
      assert IsAt(seg, "Season", 0);
      FindFromFirst(seg, "Season", 0, 0);
    }
    assert Split(seg, " ") == ["Season", d] by {
      assert seg == "Season" + [' '] + d;
      assert ' ' !in "Season";
      SplitAtChar("Season", ' ', d);
      SplitNoChar(d, ' ');
    }
    IntToStrParses(n);
    SegmentSeasonOfWords(seg, d, n);
  }

  /** `SegmentSeason` read off a "Season" segment's words. */
  lemma SegmentSeasonOfWords(seg: string, number: string, n: int)
    requires seg != "Specials" && Contains(seg, "Season")
    requires Split(seg, " ") == ["Season", number] && ParseInt(number) == Some(n)
    ensures SegmentSeason(seg) == Success(Some(n))
  {
  }

  /** `ShowCard` read off the caption's pieces. */
  lemma ShowCardOfPieces(url: string, c: string, title: string, year: Option<int>, season: Option<int>, cover: bool)
    requires Split(c, " (")[0] == title && ShowYear(c) == year
    requires cover <==> !Contains(c, " - ")
    requires cover ==> season.None?
    requires !cover ==> SegmentSeason(Last(Split(c, " - "))) == Success(season)
    ensures ShowCard(url, c) == Success(ShowMeta(title, url, season, year, cover))
  {
  }

  /** A canonical show caption "T (YYYY)" + tail, with T free of " (" and of
      " -": the title is T, the year YYYY, and the tail decides the rest —
      none makes the card the show's cover, " - Specials" gives season 0 and
      " - Season N" gives season N. */
  lemma ShowCanonicalCaption(url: string, t: string, y: string, tail: CaptionTail)
    requires !Contains(t, " (") && !Contains(t, " -") && |y| == 4 && AllDigits(y)
    ensures ShowCard(url, t + " (" + y + ")" + TailText(tail)) ==
            Success(ShowMeta(t, url, TailSeason(tail), Some(DigitsValue(y) as int), tail.CoverTail?))
  {
    var c := t + " (" + y + ")" + TailText(tail);
    NoParenInTail(tail);
    CanonicalParens(t, y, TailText(tail));
    if tail.CoverTail? {
      CanonicalCover(t, y);
    } else {
      CanonicalDash(t, y, tail);
    }
    ShowCardOfPieces(url, c, t, Some(DigitsValue(y) as int), TailSeason(tail), tail.CoverTail?);
  }

  /** The title and year of "T (YYYY)" followed by text without '('. */
  lemma CanonicalParens(t: string, y: string, more: string)
    requires !Contains(t, " (") && |y| == 4 && AllDigits(y) && '(' !in more
    ensures Split(t + " (" + y + ")" + more, " (")[0] == t
    ensures ShowYear(t + " (" + y + ")" + more) == Some(DigitsValue(y) as int)
  {
    var rest := y + ")" + more;
    var c := t + " (" + y + ")" + more;
    assert c == t + " (" + rest;
    YearChunk(y, more);
    SplitParen(t, rest);
    NoParenSplit(rest);
    ShowYearOfChunks(c, [t, rest], DigitsValue(y) as int);
  }

  lemma ShowYearOfChunks(c: string, chunks: seq<string>, year: int)
    requires |chunks| >= 2 && Split(c, " (") == chunks
    requires ParseInt(Split(chunks[1], ")")[0]) == Some(year)
    ensures ShowYear(c) == Some(year)
  {
  }

  lemma CanonicalCover(t: string, y: string)
    requires !Contains(t, " -") && |y| == 4 && AllDigits(y)
    ensures !Contains(t + " (" + y + ")" + TailText(CoverTail), " - ")
  {
    HeadHasNoDash(t, y);
    assert t + " (" + y + ")" + TailText(CoverTail) == t + " (" + y + ")";
    MissingDashPair(t + " (" + y + ")");
  }

  lemma CanonicalDash(t: string, y: string, tail: CaptionTail)
    requires !Contains(t, " -") && |y| == 4 && AllDigits(y) && !tail.CoverTail?
    ensures Contains(t + " (" + y + ")" + TailText(tail), " - ")
    ensures SegmentSeason(Last(Split(t + " (" + y + ")" + TailText(tail), " - "))) == Success(TailSeason(tail))
  {
    var head := t + " (" + y + ")";
    var c := head + TailText(tail);
    HeadHasNoDash(t, y);
    TailSegment(tail);
    var seg := TailText(tail)[3..];
    assert c == head + " - " + seg;
    assert Contains(c, " - ") by {
      assert c[|head|..|head| + 3] == " - ";
      assert IsAt(c, " - ", |head|);
      FindFromFirst(c, " - ", 0, |head|);
    }
    DashSplit(head, seg);
    assert Last([head, seg]) == seg;
  }

  /** "T (YYYY)" with T free of " -" has no " -" pair at all. */
  lemma HeadHasNoDash(t: string, y: string)
    requires !Contains(t, " -") && |y| == 4 && AllDigits(y)
    ensures forall i :: 0 <= i < |t + " (" + y + ")"| - 1 ==>
              !((t + " (" + y + ")")[i] == ' ' && (t + " (" + y + ")")[i + 1] == '-')
  {
    var h := t + " (" + y + ")";
    ContainsIff(t, " -");
    forall i | 0 <= i < |h| - 1
      ensures !(h[i] == ' ' && h[i + 1] == '-')
    {
      if i + 1 < |t| {
        assert !IsAt(t, " -", i);
        assert t[i..i + 2][0] == t[i] && t[i..i + 2][1] == t[i + 1];
      } else if i >= |t| + 2 {
        assert h[i] == y[i - |t| - 2] && IsDigit(y[i - |t| - 2]);
      }
    }
  }

  lemma MissingDashPair(s: string)
    requires forall i :: 0 <= i < |s| - 1 ==> !(s[i] == ' ' && s[i + 1] == '-')
    ensures !Contains(s, " - ")
  {
    ContainsIff(s, " - ");
    forall i | 0 <= i <= |s|
      ensures !IsAt(s, " - ", i)
    {
      if i + 3 <= |s| {
        assert s[i..i + 3][0] == s[i] && s[i..i + 3][1] == s[i + 1];
      }
    }
  }

  /** Splitting "head - seg" at " - ", where head has no " -" pair and seg
      has no " - ": exactly the two pieces. */
  lemma DashSplit(head: string, seg: string)
    requires |head| > 0 && head[|head| - 1] == ')'
    requires forall i :: 0 <= i < |head| - 1 ==> !(head[i] == ' ' && head[i + 1] == '-')
    requires !Contains(seg, " - ")
    ensures Split(head + " - " + seg, " - ") == [head, seg]
  {
    var sep := " - ";
    MissingDashPair(head);
    forall k | 0 < k < |sep| && k <= |head|
      ensures !(head[|head| - k..] == sep[..k] && sep[k..] == sep[..|sep| - k])
    {
      assert head[|head| - k..][k - 1] == ')';
    }
    SplitAfterClean(head, sep, seg);
    SplitHead(seg, sep);
  }

  // ---------------------------------------------------------------- user pages

  /** `math.ceil(n / 24)` for an int, as integer ceiling division. */
  function CeilDiv(n: int, d: int): int
    requires d > 0
  {
    -((-n) / d)
  }

  lemma CeilDivIsCeiling(n: int, d: int)
    requires d > 0
    ensures d * (CeilDiv(n, d) - 1) < n <= d * CeilDiv(n, d)
  {
  }

  /** `scrape_posterd_user_info`: the number of 24-poster pages of a user's
      uploads, from the `data-count` text of the counter span; None when the
      span is missing or its text is not an int. */
  function UserPages(countText: Option<string>): (r: Option<int>)
    ensures r.Some? ==> countText.Some? && ParseInt(countText.value).Some? &&
                        24 * (r.value - 1) < ParseInt(countText.value).value <= 24 * r.value
    ensures r.None? ==> countText.None? || ParseInt(countText.value).None?
  {
    if countText.None? then None
    else match ParseInt(countText.value)
      case None => None
      case Some(n) =>
        CeilDivIsCeiling(n, 24);
        Some(CeilDiv(n, 24))
  }
}
