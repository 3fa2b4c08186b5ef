/** Reading a MediUX set page (plex_poster_set_helper.py:304-327, 720-839).
    The page's scripts are texts; the set document that `json.loads` makes
    of the chosen script is given by a decoder, and is typed here by the
    keys the scraper reads. */
module Mediux {
  import opened Seqs
  import opened Wrappers
  import opened PyStr
  import opened Media
  import opened PosterDb

  // ---------------------------------------------------------------- title_cleaner

  /** `title_cleaner`: the text before the first " (", else before the first
      " -", stripped of surrounding whitespace. */
  function TitleCleaner(s: string): string {
    Strip(TitleHead(s))
  }

  /** The text before the first " (", else before the first " -". */
  function TitleHead(s: string): string {
    if Contains(s, " (") then Split(s, " (")[0]
    else if Contains(s, " -") then Split(s, " -")[0]
    else s
  }

  /** The cleaned title is stripped and never contains " ("; when the text
      has no " (" it does not contain " -" either. */
  lemma TitleCleanerClean(s: string)
    ensures var r := TitleCleaner(s);
            (r == [] || (!IsSpace(r[0]) && !IsSpace(r[|r| - 1]))) &&
            !Contains(r, " (") &&
            (!Contains(s, " (") ==> !Contains(r, " -"))
  {
    TitleHeadClean(s);
    StripKeepsAbsent(TitleHead(s), " (");
    if !Contains(s, " (") {
      StripKeepsAbsent(TitleHead(s), " -");
    }
  }

  lemma TitleHeadClean(s: string)
    ensures !Contains(TitleHead(s), " (")
    ensures !Contains(s, " (") ==> !Contains(TitleHead(s), " -")
  {
    if Contains(s, " (") {
      ParenHeadFree(s);
    } else if Contains(s, " -") {
      DashHeadFree(s);
    }
  }

  /** The head before the first " (" holds no " (". */
  lemma ParenHeadFree(s: string)
    requires Contains(s, " (")
    ensures !Contains(Split(s, " (")[0], " (")
  {
    SplitHead(s, " (");
    BeforeFirstFree(s, " (");
  }

  /** In a text without " (", the head before the first " -" holds neither. */
  lemma DashHeadFree(s: string)
    requires !Contains(s, " (") && Contains(s, " -")
    ensures !Contains(Split(s, " -")[0], " (") && !Contains(Split(s, " -")[0], " -")
  {
    SplitHead(s, " -");
    BeforeFirstFree(s, " -");
    var f := Find(s, " -");
    if Contains(s[..f], " (") {
      ContainsSlice(s, 0, f, " (");
    }
  }

  /** Stripping introduces no occurrence. */
  lemma StripKeepsAbsent(t: string, sub: string)
    requires !Contains(t, sub)
    ensures !Contains(Strip(t), sub)
  {
    var a := StripSlice(t);
    if Contains(Strip(t), sub) {
      ContainsSlice(t, a, a + |Strip(t)|, sub);
    }
  }

  /** With a title T free of " (", "T (anything" cleans to T stripped. */
  lemma TitleCleanerParen(t: string, rest: string)
    requires !Contains(t, " (")
    ensures TitleCleaner(t + " (" + rest) == Strip(t)
  {
    var s := t + " (" + rest;
    SplitParen(t, rest);
    assert s[|t|..|t| + 2] == " (";
    FindFromFirst(s, " (", 0, |t|);
  }

  // ---------------------------------------------------------------- parse_string_to_dict

  /** The escape repair of `parse_string_to_dict`: drop every `\\\"`, then
      every remaining backslash, then turn `u0026` into `&`. */
  function RepairScript(s: string): string {
    var s1 := Replace(s, "\\\\\\\"", "");
    var s2 := Replace(s1, "\\", "");
    Replace(s2, "u0026", "&")
  }

  /** The JSON text: from the first '{' to the last '}' of the repaired
      script, as the Python slice `[find('{'):rfind('}') + 1]`. */
  function JsonText(s: string): string {
    var t := RepairScript(s);
    Slice(t, Find(t, "{"), RFind(t, "}") + 1)
  }

  /** No backslash survives the repair. */
  lemma RepairRemovesBackslashes(s: string)
    ensures '\\' !in RepairScript(s)
  {
    var s1 := Replace(s, "\\\\\\\"", "");
    ReplaceRemovesChar(s1, '\\');
    ReplaceKeepsAbsent(Replace(s1, "\\", ""), "u0026", "&", '\\');
  }

  /** When the repaired script has a '{' before some '}', the JSON text is
      the span from the first '{' to the last '}', braces included, and it
      has no backslash. */
  lemma JsonTextBraced(s: string)
    requires var t := RepairScript(s); 0 <= Find(t, "{") <= RFind(t, "}")
    ensures var t := RepairScript(s); var r := JsonText(s);
            r == t[Find(t, "{")..RFind(t, "}") + 1] &&
            r[0] == '{' && r[|r| - 1] == '}' && '\\' !in r
  {
    var t := RepairScript(s);
    var i, j := Find(t, "{"), RFind(t, "}");
    assert t[i..i + 1] == "{" && t[j..j + 1] == "}";
    var r := JsonText(s);
    assert r == t[i..j + 1];
    assert r[0] == t[i] && r[|r| - 1] == t[j];
    RepairRemovesBackslashes(s);
    assert forall k :: 0 <= k < |r| ==> r[k] == t[i + k];
  }

  // ---------------------------------------------------------------- the set document

  datatype EpisodeRef = EpisodeRef(id: string, seasonNumber: int)
  datatype FileEntry = FileEntry(
    id: string,
    fileType: string,
    title: string,
    showId: Option<string>,
    showIdBackdrop: Option<string>,
    seasonId: Option<string>,
    episodeId: Option<EpisodeRef>,
    movieId: Option<string>,
    collectionId: Option<string>)
  datatype SeasonDoc = SeasonDoc(id: string, seasonNumber: int)
  datatype ShowDoc = ShowDoc(name: string, firstAirDate: Option<string>, seasons: seq<SeasonDoc>)
  datatype MovieDoc = MovieDoc(id: string, title: string, releaseDate: string)
  datatype CollectionDoc = CollectionDoc(name: string, movies: seq<MovieDoc>)
  /** `data_dict["set"]`. */
  datatype SetDoc = SetDoc(files: seq<FileEntry>, show: Option<ShowDoc>, movie: Option<MovieDoc>,
                           collection: Option<CollectionDoc>)

  const BaseUrl := "https://mediux.pro/_next/image?url=https%3A%2F%2Fapi.mediux.pro%2Fassets%2F"
  const QualitySuffix := "&w=3840&q=80"

  function ImageUrl(f: FileEntry): string {
    BaseUrl + f.id + QualitySuffix
  }

  // ---------------------------------------------------------------- filters

  /** `check_mediux_filter`: with a filter list that is None or empty every
      file type passes; otherwise exactly the listed ones. */
  function MediuxFilter(filters: Option<seq<string>>, fileType: string): (r: bool)
    ensures r <==> filters.None? || filters.value == [] || fileType in filters.value
  {
    if filters.Some? && |filters.value| > 0 then fileType in filters.value else true
  }

  // ---------------------------------------------------------------- media type

  datatype Kind = ShowKind | MovieKind

  /** The test of the first loop: an entry that names a show, a show
      backdrop, an episode or a season makes the set a show set. */
  function KindOf(f: FileEntry): Kind {
    if f.showId.Some? || f.showIdBackdrop.Some? || f.episodeId.Some? || f.seasonId.Some?
    then ShowKind else MovieKind
  }

  /** The media type after the first loop: each entry overwrites it, so the
      last entry decides; None for a set without files. */
  function MediaTypeOf(files: seq<FileEntry>): (r: Option<Kind>)
    ensures r.None? <==> files == []
  {
    if files == [] then None else Some(KindOf(files[|files| - 1]))
  }

  // ---------------------------------------------------------------- carried loop variables

  /** A Python local that may not have been assigned yet. */
  datatype Slot<T> = Unbound | Bound(v: T)

  /** The loop variables of the second loop that keep their values from one
      iteration to the next. */
  datatype Carry = Carry(season: Slot<Option<int>>, episode: Slot<Option<int>>, fileType: Slot<string>,
                         title: string, year: Option<int>)

  /** Before the loops: `year = 0`, `title = "Untitled"`, the rest unbound. */
  const StartCarry := Carry(Unbound, Unbound, Unbound, "Untitled", Some(0))

  /** The show flags, reset for every entry. */
  datatype Flags = Flags(backdrop: bool, cover: bool, seasonCover: bool)

  /** The season number of the first season whose id is `id`, as the
      comprehension-then-`[0]` of the source; None where that raises. */
  function FirstSeason(seasons: seq<SeasonDoc>, id: string): (r: Option<int>)
    ensures r.None? <==> forall k :: 0 <= k < |seasons| ==> seasons[k].id != id
    ensures r.Some? ==> exists k :: 0 <= k < |seasons| && seasons[k].id == id &&
                          seasons[k].seasonNumber == r.value &&
                          forall j :: 0 <= j < k ==> seasons[j].id != id
  {
    if seasons == [] then None
    else if seasons[0].id == id then Some(seasons[0].seasonNumber)
    else
      var r := FirstSeason(seasons[1..], id);
      assert forall k :: 1 <= k < |seasons| ==> seasons[k] == seasons[1..][k - 1];
      if r.Some? then
        var k :| 0 <= k < |seasons[1..]| && seasons[1..][k].id == id && seasons[1..][k].seasonNumber == r.value &&
                 forall j :: 0 <= j < k ==> seasons[1..][j].id != id;
        assert seasons[k + 1] == seasons[1..][k];
        assert forall j :: 0 <= j < k + 1 ==> seasons[j].id != id by {
          forall j | 0 <= j < k + 1 ensures seasons[j].id != id {
            if j > 0 { assert seasons[j] == seasons[1..][j - 1]; }
          }
        }
        r
      else r
  }

  /** The movie of a collection whose id is `id`, first match. */
  function FirstMovie(movies: seq<MovieDoc>, id: string): (r: Option<MovieDoc>)
    ensures r.None? <==> forall k :: 0 <= k < |movies| ==> movies[k].id != id
    ensures r.Some? ==> r.value in movies && r.value.id == id
  {
    if movies == [] then None
    else if movies[0].id == id then Some(movies[0])
    else
      assert forall k :: 1 <= k < |movies| ==> movies[k] == movies[1..][k - 1];
      FirstMovie(movies[1..], id)
  }

  /** The episode after a title card: `int()` of the text after the last
      " E" of the entry's title; when that raises the exception is caught
      and the episode keeps its previous value. */
  function CardEpisode(title: string, previous: Slot<Option<int>>): Slot<Option<int>> {
    var pieces := RSplit1(title, " E");
    if |pieces| == 2 && ParseInt(pieces[1]).Some? then Bound(Some(ParseInt(pieces[1]).value))
    else previous
  }

  /** The if-chain of a show entry, in the source's order: title card,
      backdrop, season cover, show cover. An entry matching none leaves the
      carried variables as they were. */
  function ClassifyShow(show: ShowDoc, c: Carry, f: FileEntry): Result<(Carry, Flags)> {
    if f.fileType == "title_card" then
      match f.episodeId
      case None => Failure(TypeError("'NoneType' object is not subscriptable"))
      case Some(ep) =>
        Success((c.(season := Bound(Some(ep.seasonNumber)), episode := CardEpisode(f.title, c.episode),
                    fileType := Bound("title_card"), title := f.title), Flags(false, false, false)))
    else if f.fileType == "backdrop" then
      Success((c.(season := Bound(None), episode := Bound(None), fileType := Bound("background")),
               Flags(true, false, false)))
    else if f.seasonId.Some? then
      match FirstSeason(show.seasons, f.seasonId.value)
      case None => Failure(IndexError("list index out of range"))
      case Some(n) =>
        Success((c.(season := Bound(Some(n)), episode := Bound(None), fileType := Bound("season_cover")),
                 Flags(false, false, true)))
    else if f.showId.Some? then
      Success((c.(season := Bound(None), episode := Bound(None), fileType := Bound("show_cover")),
               Flags(false, true, false)))
    else Success((c, Flags(false, false, false)))
  }

  /** `int(date[:4])` with the exception caught: None for a missing date. */
  function AirYear(date: Option<string>): Option<int> {
    match date
    case None => None
    case Some(d) => ParseInt(Prefix(d, 4))
  }

  /** One entry of a show set: the carried variables are updated, the
      poster is built (a season, episode or file type never assigned
      raises NameError) and kept when the filter lets its file type pass. */
  function ShowStep(doc: SetDoc, filters: Option<seq<string>>, c: Carry, acc: Scraped, f: FileEntry): Result<(Carry, Scraped)> {
    if doc.show.None? then Failure(TypeError("'NoneType' object is not subscriptable"))
    else
      var show := doc.show.value;
      var c1 := c.(year := AirYear(show.firstAirDate));
      match ClassifyShow(show, c1, f)
      case Failure(e) => Failure(e)
      case Success((c2, fl)) =>
        if c2.season.Unbound? then Failure(NameError("season"))
        else if c2.episode.Unbound? then Failure(NameError("episode"))
        else
          var poster := Blank().(title := show.name, url := ImageUrl(f), season := c2.season.v,
                                 episode := c2.episode.v, year := c2.year, source := "mediux",
                                 showCoverArt := fl.cover, showBackdrop := fl.backdrop,
                                 seasonCoverArt := fl.seasonCover);
          if c2.fileType.Unbound? then Failure(NameError("file_type"))
          else if MediuxFilter(filters, c2.fileType.v) then Success((c2, acc.(shows := acc.shows + [poster])))
          else Success((c2, acc))
  }

  /** The title and `int(release_date[:4])` of a movie, which may raise. */
  function Release(m: MovieDoc, c: Carry): Result<Carry> {
    match ParseInt(Prefix(m.releaseDate, 4))
    case None => Failure(ValueError("invalid literal for int() with base 10"))
    case Some(y) => Success(c.(title := m.title, year := Some(y)))
  }

  /** The title and year a movie-set entry carries: from the set's movie,
      else from the matching movie of the set's collection; a collection
      entry takes the collection's name. */
  function MovieCarry(doc: SetDoc, c: Carry, f: FileEntry): Result<Carry> {
    if f.movieId.Some? then
      if doc.movie.Some? then Release(doc.movie.value, c)
      else if doc.collection.Some? then
        match FirstMovie(doc.collection.value.movies, f.movieId.value)
        case None => Failure(IndexError("list index out of range"))
        case Some(m) => Release(m, c)
      else Success(c)
    else if f.collectionId.Some? then
      if doc.collection.None? then Failure(TypeError("'NoneType' object is not subscriptable"))
      else Success(c.(title := doc.collection.value.name))
    else Success(c)
  }

  /** One entry of a movie set: a title containing "Collection" makes a
      collection poster, any other a movie poster with the carried year. */
  function MovieStep(doc: SetDoc, c: Carry, acc: Scraped, f: FileEntry): Result<(Carry, Scraped)> {
    match MovieCarry(doc, c, f)
    case Failure(e) => Failure(e)
    case Success(c1) =>
      if Contains(c1.title, "Collection") then
        Success((c1, acc.(collections := acc.collections + [Blank().(title := c1.title, url := ImageUrl(f), source := "mediux")])))
      else
        match c1.year
        case None => Failure(TypeError("int() argument must be a string or a number, not 'NoneType'"))
        case Some(y) =>
          Success((c1, acc.(movies := acc.movies + [Blank().(title := c1.title, url := ImageUrl(f), year := Some(y), source := "mediux")])))
  }

  function EntryStep(doc: SetDoc, kind: Kind, filters: Option<seq<string>>, st: (Carry, Scraped), f: FileEntry): Result<(Carry, Scraped)> {
    match kind
    case ShowKind => ShowStep(doc, filters, st.0, st.1, f)
    case MovieKind => MovieStep(doc, st.0, st.1, f)
  }

  /** The second loop over the first `files`, stopping at an exception. */
  function Entries(doc: SetDoc, kind: Kind, filters: Option<seq<string>>, files: seq<FileEntry>): Result<(Carry, Scraped)> {
    if files == [] then Success((StartCarry, Scraped([], [], [])))
    else
      match Entries(doc, kind, filters, files[..|files| - 1])
      case Failure(e) => Failure(e)
      case Success(st) => EntryStep(doc, kind, filters, st, files[|files| - 1])
  }

  /** The posters of a decoded set document. */
  function ScrapeDoc(doc: SetDoc, filters: Option<seq<string>>): Result<Scraped> {
    match MediaTypeOf(doc.files)
    case None => Success(Scraped([], [], []))
    case Some(kind) =>
      match Entries(doc, kind, filters, doc.files)
      case Failure(e) => Failure(e)
      case Success(st) => Success(st.1)
  }

  /** The script loop: every script mentioning "files" and "set" but not
      `Set Link\` is decoded, and the last one decides; a decoding error
      escapes. */
  predicate Selected(script: string) {
    Contains(script, "files") && Contains(script, "set") && !Contains(script, "Set Link\\")
  }

  function SelectDoc(scripts: seq<string>, decode: string -> Result<SetDoc>): Result<Option<SetDoc>> {
    if scripts == [] then Success(None)
    else
      match SelectDoc(scripts[..|scripts| - 1], decode)
      case Failure(e) => Failure(e)
      case Success(doc) =>
        var s := scripts[|scripts| - 1];
        if Selected(s) then
          match decode(JsonText(s))
          case Failure(e) => Failure(e)
          case Success(d) => Success(Some(d))
        else Success(doc)
  }

  /** `scrape_mediux` as a whole; a page with no selected script leaves
      `poster_data` unbound. */
  function MediuxSpec(scripts: seq<string>, filters: Option<seq<string>>, decode: string -> Result<SetDoc>): Result<Scraped> {
    match SelectDoc(scripts, decode)
    case Failure(e) => Failure(e)
    case Success(None) => Failure(NameError("poster_data"))
    case Success(Some(doc)) => ScrapeDoc(doc, filters)
  }

  // ---------------------------------------------------------------- the method

  /** `scrape_mediux`: the script loop, the media-type loop and the entry
      loop, each carrying its variables from one iteration to the next. */
  method ScrapeMediux(scripts: seq<string>, filters: Option<seq<string>>, decode: string -> Result<SetDoc>)
    returns (r: Result<Scraped>)
    ensures r == MediuxSpec(scripts, filters, decode)
  {
    var doc: Option<SetDoc> := None;
    for i := 0 to |scripts|
      invariant SelectDoc(scripts[..i], decode) == Success(doc)
    {
      TakeSnoc(scripts, i);
      if Selected(scripts[i]) {
        var parsed := decode(JsonText(scripts[i]));
        if parsed.Failure? {
          SelectFailurePersists(scripts, decode, i + 1);
          return Failure(parsed.error);
        }
        doc := Some(parsed.value);
      }
    }
    TakeAll(scripts);
    if doc.None? {
      return Failure(NameError("poster_data"));
    }
    var files := doc.value.files;
    var mediaType: Option<Kind> := None;
    for i := 0 to |files|
      invariant mediaType == MediaTypeOf(files[..i])
    {
      mediaType := Some(KindOf(files[i]));
    }
    TakeAll(files);
    if mediaType.None? {
      return Success(Scraped([], [], []));
    }
    var carry := StartCarry;
    var movies, shows, collections := [], [], [];
    for i := 0 to |files|
      invariant Entries(doc.value, mediaType.value, filters, files[..i]) == Success((carry, Scraped(movies, shows, collections)))
    {
      TakeSnoc(files, i);
      var step := EntryStep(doc.value, mediaType.value, filters, (carry, Scraped(movies, shows, collections)), files[i]);
      if step.Failure? {
        EntriesFailurePersists(doc.value, mediaType.value, filters, files, i + 1);
        return Failure(step.error);
      }
      carry := step.value.0;
      movies, shows, collections := step.value.1.movies, step.value.1.shows, step.value.1.collections;
    }
    return Success(Scraped(movies, shows, collections));
  }

  lemma {:induction false} SelectFailurePersists(scripts: seq<string>, decode: string -> Result<SetDoc>, i: nat)
    requires i <= |scripts| && SelectDoc(scripts[..i], decode).Failure?
    ensures SelectDoc(scripts, decode) == SelectDoc(scripts[..i], decode)
    decreases |scripts| - i
  {
    if i < |scripts| {
      TakeSnoc(scripts, i);
      SelectFailurePersists(scripts, decode, i + 1);
    } else {
      assert scripts[..i] == scripts;
    }
  }

  lemma {:induction false} EntriesFailurePersists(doc: SetDoc, kind: Kind, filters: Option<seq<string>>, files: seq<FileEntry>, i: nat)
    requires i <= |files| && Entries(doc, kind, filters, files[..i]).Failure?
    ensures Entries(doc, kind, filters, files) == Entries(doc, kind, filters, files[..i])
    decreases |files| - i
  {
    if i < |files| {
      TakeSnoc(files, i);
      EntriesFailurePersists(doc, kind, filters, files, i + 1);
    } else {
      assert files[..i] == files;
    }
  }

  // ---------------------------------------------------------------- properties

  /** The last entry decides the media type of the whole set: appending an
      entry to any set makes that entry's kind the set's. */
  lemma LastEntryDecides(files: seq<FileEntry>, f: FileEntry)
    ensures MediaTypeOf(files + [f]) == Some(KindOf(f))
  {
  }

  /** A show set yields only show posters, a movie set none. */
  lemma {:induction false} KindSeparates(doc: SetDoc, kind: Kind, filters: Option<seq<string>>, files: seq<FileEntry>)
    requires Entries(doc, kind, filters, files).Success?
    ensures var sc := Entries(doc, kind, filters, files).value.1;
            (kind == ShowKind ==> sc.movies == [] && sc.collections == []) &&
            (kind == MovieKind ==> sc.shows == [])
  {
    if files != [] {
      KindSeparates(doc, kind, filters, files[..|files| - 1]);
    }
  }

  /** Without a filter list every entry of a show set becomes a poster, one
      per entry and in order; with one, never more posters than entries. */
  lemma {:induction false} ShowPosterCount(doc: SetDoc, filters: Option<seq<string>>, files: seq<FileEntry>)
    requires Entries(doc, ShowKind, filters, files).Success?
    ensures |Entries(doc, ShowKind, filters, files).value.1.shows| <= |files|
    ensures (filters.None? || filters == Some([])) ==>
              |Entries(doc, ShowKind, filters, files).value.1.shows| == |files|
  {
    if files != [] {
      ShowPosterCount(doc, filters, files[..|files| - 1]);
    }
  }

  /** A show poster with at most one of the three art flags, made from one
      of `files`. */
  predicate ShowPosterOf(p: Meta, files: seq<FileEntry>) {
    !(p.showBackdrop && p.showCoverArt) && !(p.showBackdrop && p.seasonCoverArt) &&
    !(p.showCoverArt && p.seasonCoverArt) && p.source == "mediux" &&
    exists f :: f in files && p.url == ImageUrl(f)
  }

  /** Every show poster of a set carries at most one of the three art
      flags, and its URL is that of one of the set's entries. */
  lemma {:induction false} ShowFlagsExclusive(doc: SetDoc, filters: Option<seq<string>>, files: seq<FileEntry>)
    requires Entries(doc, ShowKind, filters, files).Success?
    ensures forall p :: p in Entries(doc, ShowKind, filters, files).value.1.shows ==> ShowPosterOf(p, files)
  {
    if files != [] {
      var init := files[..|files| - 1];
      var last := files[|files| - 1];
      ShowFlagsExclusive(doc, filters, init);
      var st := Entries(doc, ShowKind, filters, init).value;
      ShowStepPoster(doc, filters, st.0, st.1, last);
      forall p | p in Entries(doc, ShowKind, filters, files).value.1.shows
        ensures ShowPosterOf(p, files)
      {
        if p in st.1.shows {
          assert ShowPosterOf(p, init);
          var f :| f in init && p.url == ImageUrl(f);
          assert f in files;
        } else {
          assert last in files;
        }
      }
    }
  }

  /** One show step keeps the earlier posters and adds at most one, with
      at most one art flag and the entry's URL. */
  lemma ShowStepPoster(doc: SetDoc, filters: Option<seq<string>>, c: Carry, acc: Scraped, f: FileEntry)
    requires ShowStep(doc, filters, c, acc, f).Success?
    ensures var shows := ShowStep(doc, filters, c, acc, f).value.1.shows;
            shows == acc.shows ||
            (|shows| == |acc.shows| + 1 && shows[..|acc.shows|] == acc.shows &&
             var p := shows[|acc.shows|];
             !(p.showBackdrop && p.showCoverArt) && !(p.showBackdrop && p.seasonCoverArt) &&
             !(p.showCoverArt && p.seasonCoverArt) && p.source == "mediux" && p.url == ImageUrl(f))
  {
  }

  /** A show entry adds its poster exactly when the filter lets the file
      type it leaves in `file_type` pass. */
  lemma FilterKeepsShowPoster(doc: SetDoc, filters: Option<seq<string>>, c: Carry, acc: Scraped, f: FileEntry)
    requires ShowStep(doc, filters, c, acc, f).Success?
    ensures var st := ShowStep(doc, filters, c, acc, f).value;
            st.0.fileType.Bound? &&
            (|st.1.shows| == |acc.shows| + 1 <==> MediuxFilter(filters, st.0.fileType.v)) &&
            (!MediuxFilter(filters, st.0.fileType.v) ==> st.1 == acc)
  {
  }

  /** An entry that is no title card, no backdrop and names neither a season
      nor the show leaves the carried variables as they were; as the first
      entry of a set it meets `season` unassigned. */
  lemma UnmatchedEntryCarries(doc: SetDoc, filters: Option<seq<string>>, c: Carry, acc: Scraped, f: FileEntry)
    requires doc.show.Some? && f.fileType != "title_card" && f.fileType != "backdrop"
    requires f.seasonId.None? && f.showId.None?
    ensures ClassifyShow(doc.show.value, c, f) == Success((c, Flags(false, false, false)))
    ensures ShowStep(doc, filters, StartCarry, acc, f) == Failure(NameError("season"))
  {
  }

  /** A title card takes its season from the episode reference and its
      episode from the number after the title's last " E". */
  lemma TitleCardEntry(show: ShowDoc, c: Carry, f: FileEntry, ep: EpisodeRef, before: string, n: int)
    requires f.fileType == "title_card" && f.episodeId == Some(ep)
    requires f.title == before + " E" + IntToStr(n)
    ensures ClassifyShow(show, c, f).Success?
    ensures var c2 := ClassifyShow(show, c, f).value.0;
            c2.season == Bound(Some(ep.seasonNumber)) && c2.episode == Bound(Some(n)) &&
            c2.fileType == Bound("title_card")
  {
    var d := IntToStr(n);
    RSplitAtLastE(f.title[..|before|], d);
    assert f.title[..|before|] == before;
    IntToStrParses(n);
  }

  /** Cutting at the last " E" before a signed number. */
  lemma RSplitAtLastE(before: string, d: string)
    requires forall k :: 0 <= k < |d| ==> IsDigit(d[k]) || d[k] == '-'
    ensures RSplit1(before + " E" + d, " E") == [before, d]
  {
    var s := before + " E" + d;
    var j := |before|;
    assert s[j..j + 2] == " E";
    forall k | j < k < |s| + 1
      ensures !IsAt(s, " E", k)
    {
      if k + 2 <= |s| {
        assert s[k..k + 2][0] == s[k];
        if k == j + 1 {
          assert s[k] == 'E';
        } else {
          assert s[k] == d[k - j - 2];
          assert IsDigit(d[k - j - 2]) || d[k - j - 2] == '-';
        }
        assert s[k] != ' ';
        assert s[k..k + 2] != " E";
      }
    }
    RFindBelowExact(s, " E", |s| + 1, j);
    assert s[..j] == before && s[j + 2..] == d;
  }

  /** A title card whose title has no " E" keeps the episode of the entry
      before it: the ValueError or IndexError is caught and `episode` is
      not reassigned. */
  lemma TitleCardKeepsEpisode(show: ShowDoc, c: Carry, f: FileEntry, ep: EpisodeRef)
    requires f.fileType == "title_card" && f.episodeId == Some(ep) && !Contains(f.title, " E")
    ensures ClassifyShow(show, c, f).Success? && ClassifyShow(show, c, f).value.0.episode == c.episode
  {
  }

  /** A season cover takes the number of the first season with its id, and
      one whose id names no season raises IndexError. */
  lemma SeasonCoverEntry(show: ShowDoc, c: Carry, f: FileEntry)
    requires f.fileType != "title_card" && f.fileType != "backdrop" && f.seasonId.Some?
    ensures FirstSeason(show.seasons, f.seasonId.value).None? ==> ClassifyShow(show, c, f).Failure?
    ensures FirstSeason(show.seasons, f.seasonId.value).Some? ==>
              ClassifyShow(show, c, f) ==
              Success((c.(season := Bound(FirstSeason(show.seasons, f.seasonId.value)), episode := Bound(None),
                          fileType := Bound("season_cover")), Flags(false, false, true)))
  {
  }

  // ---------------------------------------------------------------- freshness

  /** The posters of a set document are fresh. */
  lemma MediuxFresh(scripts: seq<string>, filters: Option<seq<string>>, decode: string -> Result<SetDoc>)
    ensures MediuxSpec(scripts, filters, decode).Success? ==> AllFresh(MediuxSpec(scripts, filters, decode).value)
  {
    match SelectDoc(scripts, decode) {
      case Success(Some(doc)) =>
        match MediaTypeOf(doc.files) {
          case Some(kind) => EntriesFresh(doc, kind, filters, doc.files);
          case None =>
        }
      case _ =>
    }
  }

  lemma {:induction false} EntriesFresh(doc: SetDoc, kind: Kind, filters: Option<seq<string>>, files: seq<FileEntry>)
    ensures Entries(doc, kind, filters, files).Success? ==> AllFresh(Entries(doc, kind, filters, files).value.1)
  {
    if files != [] {
      EntriesFresh(doc, kind, filters, files[..|files| - 1]);
      match Entries(doc, kind, filters, files[..|files| - 1])
      case Success(st) => EntryStepFresh(doc, kind, filters, st, files[|files| - 1]);
      case Failure(_) =>
    }
  }

  lemma EntryStepFresh(doc: SetDoc, kind: Kind, filters: Option<seq<string>>, st: (Carry, Scraped), f: FileEntry)
    requires AllFresh(st.1)
    ensures EntryStep(doc, kind, filters, st, f).Success? ==> AllFresh(EntryStep(doc, kind, filters, st, f).value.1)
  {
  }
}
