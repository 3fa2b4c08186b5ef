/** The `MediaMetadata` record as a value: its derived kind predicates, the
    cache path built from it, and the JSON record `save_to_cache` writes and
    `load_from_cache` reads back (plex_poster_set_helper.py:31-106). */
module Media {
  import opened Wrappers
  import opened PyStr

  // ---------------------------------------------------------------- datetime

  /** A whole-second `datetime` without time zone. */
  datatype DateTime = DateTime(year: int, month: int, day: int, hour: int, minute: int, second: int) {
    predicate Valid() {
      1 <= year <= 9999 && 1 <= month <= 12 && 1 <= day <= DaysIn(year, month) &&
      0 <= hour < 24 && 0 <= minute < 60 && 0 <= second < 60
    }
  }

  predicate IsLeap(y: int) {
    y % 4 == 0 && (y % 100 != 0 || y % 400 == 0)
  }

  function DaysIn(y: int, m: int): int {
    if m == 2 then (if IsLeap(y) then 29 else 28)
    else if m == 4 || m == 6 || m == 9 || m == 11 then 30
    else 31
  }

  function Pow10(w: nat): (r: nat)
    ensures r >= 1
  {
    if w == 0 then 1 else 10 * Pow10(w - 1)
  }

  /** The last `w` decimal digits of `n`, zero-padded (`%0wd`). */
  function Pad(n: nat, w: nat): (r: string)
    ensures |r| == w && AllDigits(r)
  {
    if w == 0 then "" else Pad(n / 10, w - 1) + [DigitChar(n % 10)]
  }

  lemma {:induction false} PadValue(n: nat, w: nat)
    requires n < Pow10(w)
    ensures DigitsValue(Pad(n, w)) == n
  {
    if w > 0 {
      var p := Pad(n / 10, w - 1);
      PadValue(n / 10, w - 1);
      assert (p + [DigitChar(n % 10)])[..|p|] == p;
    }
  }

  /** The middle of a concatenation. */
  lemma Middle(a: string, x: string, b: string)
    ensures (a + x + b)[|a|..|a| + |x|] == x
  {
  }

  /** `datetime.isoformat()` of a whole-second datetime: `YYYY-MM-DDTHH:MM:SS`. */
  function IsoFormat(d: DateTime): (r: string)
    requires d.Valid()
    ensures |r| == 19
  {
    Pad(d.year, 4) + "-" + Pad(d.month, 2) + "-" + Pad(d.day, 2) + "T" +
    Pad(d.hour, 2) + ":" + Pad(d.minute, 2) + ":" + Pad(d.second, 2)
  }

  /** `datetime.fromisoformat` restricted to the shape `IsoFormat` writes;
      every other text raises ValueError (here None). */
  function FromIsoFormat(s: string): (r: Option<DateTime>)
    ensures r.Some? ==> r.value.Valid()
  {
    if |s| == 19 && s[4] == '-' && s[7] == '-' && s[10] == 'T' && s[13] == ':' && s[16] == ':' &&
       AllDigits(s[0..4]) && AllDigits(s[5..7]) && AllDigits(s[8..10]) &&
       AllDigits(s[11..13]) && AllDigits(s[14..16]) && AllDigits(s[17..19])
    then
      var d := DateTime(DigitsValue(s[0..4]), DigitsValue(s[5..7]), DigitsValue(s[8..10]),
                        DigitsValue(s[11..13]), DigitsValue(s[14..16]), DigitsValue(s[17..19]));
      if d.Valid() then Some(d) else None
    else None
  }

  /** `fromisoformat(d.isoformat()) == d`. */
  lemma IsoRoundTrip(d: DateTime)
    requires d.Valid()
    ensures FromIsoFormat(IsoFormat(d)) == Some(d)
  {
    var s := IsoFormat(d);
    var y, mo, da := Pad(d.year, 4), Pad(d.month, 2), Pad(d.day, 2);
    var h, mi, se := Pad(d.hour, 2), Pad(d.minute, 2), Pad(d.second, 2);
    var s1 := y + "-" + mo + "-" + da + "T" + h;
    var s2 := ":" + mi + ":" + se;
    assert s == s1 + s2;
    Middle([], y, "-" + mo + "-" + da + "T" + h);
    Middle(y + "-", mo, "-" + da + "T" + h);
    Middle(y + "-" + mo + "-", da, "T" + h);
    Middle(y + "-" + mo + "-" + da + "T", h, []);
    Middle([], ":" + mi, ":" + se);
    Middle(":", mi, ":" + se);
    Middle(":" + mi + ":", se, []);
    assert s1[0..4] == y && s1[5..7] == mo && s1[8..10] == da && s1[11..13] == h;
    assert s2[1..3] == mi && s2[4..6] == se;
    assert s[0..4] == y && s[5..7] == mo && s[8..10] == da && s[11..13] == h;
    assert s[14..16] == mi && s[17..19] == se;
    assert s[4] == '-' && s[7] == '-' && s[10] == 'T' && s[13] == ':' && s[16] == ':';
    assert Pow10(2) == 100 && Pow10(4) == 10000;
    PadValue(d.year, 4);
    PadValue(d.month, 2);
    PadValue(d.day, 2);
    PadValue(d.hour, 2);
    PadValue(d.minute, 2);
    PadValue(d.second, 2);
  }

  // ---------------------------------------------------------------- the record

  /** One poster asset: the fields of the `MediaMetadata` dataclass, in
      declaration order. `None` stands for Python's None. */
  datatype Meta = Meta(
    url: string,
    source: string,
    title: string,
    year: Option<int>,
    season: Option<int>,
    episode: Option<int>,
    showBackdrop: bool,
    showCoverArt: bool,
    seasonCoverArt: bool,
    uploadedToPlex: bool,
    uploadedDatetime: Option<DateTime>,
    path: string,
    metadataPath: string)
  {
    /** `is_show`: an episode number that is truthy (non-zero), a season index
        that is not negative, or one of the three show flags. */
    predicate IsShow() {
      Truthy(episode) || (season.Some? && season.value >= 0) ||
      showCoverArt || showBackdrop || seasonCoverArt
    }

    /** `is_movie`: not a show and a truthy (non-zero) year. */
    predicate IsMovie() {
      !IsShow() && Truthy(year)
    }

    /** `is_collection`: not a show and no year at all. */
    predicate IsCollection() {
      !IsShow() && year.None?
    }

    /** The datetime field holds a datetime Python could construct. */
    predicate WellFormed() {
      uploadedDatetime.Some? ==> uploadedDatetime.value.Valid()
    }
  }

  /** Python truthiness of an optional int: None and 0 are false. */
  predicate Truthy(x: Option<int>) {
    x.Some? && x.value != 0
  }

  /** `MediaMetadata()` with every field at its default. */
  function Blank(): Meta {
    Meta("", "", "", None, None, None, false, false, false, false, None, "", "")
  }

  /** An asset as the scrapers make it: not yet on Plex and without an
      upload time. */
  predicate Fresh(m: Meta) {
    !m.uploadedToPlex && m.uploadedDatetime.None?
  }

  /** At most one of the three kinds holds; an asset is none of them exactly
      when it is not a show and its year is 0. */
  lemma KindsExclusive(m: Meta)
    ensures !(m.IsShow() && m.IsMovie()) && !(m.IsShow() && m.IsCollection()) &&
            !(m.IsMovie() && m.IsCollection())
    ensures (!m.IsShow() && !m.IsMovie() && !m.IsCollection()) <==> (!m.IsShow() && m.year == Some(0))
  {
  }

  // ---------------------------------------------------------------- the cache path

  /** `os.path.join(a, b)` on POSIX. */
  function PathJoin(a: string, b: string): string {
    if StartsWith(b, "/") then b
    else if a == "" || EndsWith(a, "/") then a + b
    else a + "/" + b
  }

  /** Characters `sanitize_filename` removes on its default (universal)
      platform: the nine reserved by some file system, and control characters. */
  predicate Unsafe(c: char) {
    c == '\\' || c == '/' || c == ':' || c == '*' || c == '?' || c == '"' ||
    c == '<' || c == '>' || c == '|' || c < ' ' || c == '\U{007F}'
  }

  /** `sanitize_filename(title)`: the title with unsafe characters dropped. */
  function Sanitize(s: string): (r: string)
    ensures forall k :: 0 <= k < |r| ==> !Unsafe(r[k])
    ensures |r| <= |s|
  {
    if s == [] then []
    else if Unsafe(s[0]) then Sanitize(s[1..])
    else [s[0]] + Sanitize(s[1..])
  }

  /** The show directory `<root>/tv_shows/<title> (<year>)`. */
  function ShowDirectory(m: Meta, root: string): string {
    PathJoin(PathJoin(root, "tv_shows"), TitledDirectory(m))
  }

  /** `build_asset_path`: where the asset's files live, without extension. */
  function BuildAssetPath(m: Meta, root: string): string {
    if m.IsCollection() then
      PathJoin(PathJoin(PathJoin(root, "collections"), Sanitize(m.title)), "poster")
    else if m.IsMovie() then
      PathJoin(PathJoin(PathJoin(root, "movies"), TitledDirectory(m)), "poster")
    else if m.IsShow() then
      var dir := ShowDirectory(m, root);
      var p := if m.showCoverArt then PathJoin(dir, "cover") else dir;
      if m.showBackdrop then PathJoin(p, "backdrop")
      else if m.season == Some(0) then PathJoin(PathJoin(p, "specials"), "poster")
      else if m.season.Some? && m.season.value >= 1 then
        var sdir := "s" + IntToStr(m.season.value);
        if m.seasonCoverArt then PathJoin(PathJoin(p, sdir), "cover")
        else if Truthy(m.episode) then
          PathJoin(PathJoin(p, sdir), sdir + "e" + OptIntToStr(m.episode))
        else p
      else p
    else ""
  }

  /** The metadata file next to the asset: `<path>.json`. */
  function JsonPath(m: Meta, root: string): string {
    BuildAssetPath(m, root) + ".json"
  }

  /** The identity of an asset: the fields the cache path is built from. */
  predicate SameIdentity(a: Meta, b: Meta) {
    a.title == b.title && a.year == b.year && a.season == b.season && a.episode == b.episode &&
    a.showBackdrop == b.showBackdrop && a.showCoverArt == b.showCoverArt &&
    a.seasonCoverArt == b.seasonCoverArt
  }

  /** The path depends on the identity alone, not on the url, the source or
      the bookkeeping fields that caching and uploading change. */
  lemma PathIsIdentity(a: Meta, b: Meta, root: string)
    requires SameIdentity(a, b)
    ensures BuildAssetPath(a, root) == BuildAssetPath(b, root)
  {
  }

  /** A normal root: non-empty and without a trailing slash. */
  predicate PlainRoot(root: string) {
    root != "" && root[|root| - 1] != '/'
  }

  lemma JoinPlain(a: string, b: string)
    requires PlainRoot(a) && b != [] && b[0] != '/'
    ensures PathJoin(a, b) == a + "/" + b
    ensures b[|b| - 1] != '/' ==> PlainRoot(a + "/" + b)
  {
    assert b[..1][0] == b[0];
    assert a[|a| - 1..][0] == a[|a| - 1];
    var r := a + "/" + b;
    assert r[|r| - 1] == b[|b| - 1];
  }

  lemma SanitizedComponent(s: string)
    requires Sanitize(s) != ""
    ensures Sanitize(s)[0] != '/' && Sanitize(s)[|Sanitize(s)| - 1] != '/'
  {
  }

  /** Joining plain components onto a plain root inserts one slash each. */
  lemma TwoJoins(root: string, x: string, y: string)
    requires PlainRoot(root)
    requires x != [] && x[0] != '/' && x[|x| - 1] != '/' && y != [] && y[0] != '/'
    ensures PathJoin(PathJoin(root, x), y) == root + "/" + x + "/" + y
  {
    JoinPlain(root, x);
    JoinPlain(root + "/" + x, y);
  }

  lemma ThreeJoins(root: string, x: string, y: string, z: string)
    requires PlainRoot(root)
    requires x != [] && x[0] != '/' && x[|x| - 1] != '/' && y != [] && y[0] != '/' && y[|y| - 1] != '/'
    requires z != [] && z[0] != '/'
    ensures PathJoin(PathJoin(PathJoin(root, x), y), z) == root + "/" + x + "/" + y + "/" + z
  {
    JoinPlain(root, x);
    TwoJoins(root + "/" + x, y, z);
  }

  /** A collection is cached at `<root>/collections/<title>/poster`. */
  lemma CollectionPath(m: Meta, root: string)
    requires m.IsCollection() && PlainRoot(root) && Sanitize(m.title) != ""
    ensures BuildAssetPath(m, root) == root + "/collections/" + Sanitize(m.title) + "/poster"
  {
    var t := Sanitize(m.title);
    assert BuildAssetPath(m, root) == PathJoin(PathJoin(PathJoin(root, "collections"), t), "poster");
    SanitizedComponent(m.title);
    ThreeJoins(root, "collections", t, "poster");
  }

  /** The directory name `<title> (<year>)` of a movie or a show. */
  function TitledDirectory(m: Meta): string {
    Sanitize(m.title) + " (" + OptIntToStr(m.year) + ")"
  }

  lemma TitledDirectoryPlain(m: Meta)
    ensures TitledDirectory(m) != [] && TitledDirectory(m)[0] != '/'
    ensures TitledDirectory(m)[|TitledDirectory(m)| - 1] != '/'
  {
    if Sanitize(m.title) != "" { SanitizedComponent(m.title); }
  }

  /** A movie is cached at `<root>/movies/<title> (<year>)/poster`. */
  lemma MoviePath(m: Meta, root: string)
    requires m.IsMovie() && PlainRoot(root)
    ensures BuildAssetPath(m, root) ==
            root + "/movies/" + Sanitize(m.title) + " (" + IntToStr(m.year.value) + ")/poster"
  {
    var dir := TitledDirectory(m);
    assert BuildAssetPath(m, root) == PathJoin(PathJoin(PathJoin(root, "movies"), dir), "poster");
    TitledDirectoryPlain(m);
    ThreeJoins(root, "movies", dir, "poster");
  }

  /** A show asset with a single kind flag or episode, classified the way
      the MediUX and ThePosterDB parsers produce them. */
  datatype ShowArt = ShowCover | ShowBackdropArt | SpecialsPoster | SeasonCover(n: nat) | EpisodeCard(n: nat, e: int)

  /** The kind of a show asset whose flags say one thing only. */
  function ShowArtOf(m: Meta): Option<ShowArt> {
    if m.showCoverArt && !m.showBackdrop && !m.seasonCoverArt && m.season.None? then Some(ShowCover)
    else if m.showBackdrop && !m.showCoverArt && !m.seasonCoverArt && m.season.None? then Some(ShowBackdropArt)
    else if !m.showBackdrop && !m.showCoverArt && m.season == Some(0) then Some(SpecialsPoster)
    else if !m.showBackdrop && !m.showCoverArt && m.seasonCoverArt && m.season.Some? && m.season.value >= 1 then
      Some(SeasonCover(m.season.value))
    else if !m.showBackdrop && !m.showCoverArt && !m.seasonCoverArt && m.season.Some? && m.season.value >= 1 &&
            Truthy(m.episode) then
      Some(EpisodeCard(m.season.value, m.episode.value))
    else None
  }

  /** The file name under the show directory that each kind of show art gets. */
  function ShowArtSuffix(a: ShowArt): string {
    match a
    case ShowCover => "/cover"
    case ShowBackdropArt => "/backdrop"
    case SpecialsPoster => "/specials/poster"
    case SeasonCover(n) => SeasonSuffix(n, "cover")
    case EpisodeCard(n, e) => SeasonSuffix(n, "s" + IntToStr(n) + "e" + IntToStr(e))
  }

  /** `/s{N}/<file>`. */
  function SeasonSuffix(n: int, file: string): string {
    "/s" + IntToStr(n) + "/" + file
  }

  /** The joins `build_asset_path` performs under the show directory. */
  function ShowArtJoin(dir: string, a: ShowArt): string {
    match a
    case ShowCover => PathJoin(dir, "cover")
    case ShowBackdropArt => PathJoin(dir, "backdrop")
    case SpecialsPoster => PathJoin(PathJoin(dir, "specials"), "poster")
    case SeasonCover(n) => PathJoin(PathJoin(dir, "s" + IntToStr(n)), "cover")
    case EpisodeCard(n, e) => PathJoin(PathJoin(dir, "s" + IntToStr(n)), "s" + IntToStr(n) + "e" + IntToStr(e))
  }

  lemma ShowArtJoins(m: Meta, root: string)
    requires ShowArtOf(m).Some?
    ensures m.IsShow()
    ensures BuildAssetPath(m, root) == ShowArtJoin(ShowDirectory(m, root), ShowArtOf(m).value)
  {
  }

  lemma ShowArtJoinPlain(dir: string, a: ShowArt)
    requires PlainRoot(dir)
    ensures ShowArtJoin(dir, a) == dir + ShowArtSuffix(a)
  {
    match a
    case ShowCover => FileJoin(dir, "cover");
    case ShowBackdropArt => FileJoin(dir, "backdrop");
    case SpecialsPoster => SpecialsJoin(dir);
    case SeasonCover(n) => SeasonCoverJoin(dir, n);
    case EpisodeCard(n, e) => EpisodeJoin(dir, n, e);
  }

  lemma FileJoin(dir: string, file: string)
    requires PlainRoot(dir) && file != [] && file[0] != '/'
    ensures PathJoin(dir, file) == dir + ("/" + file)
  {
    JoinPlain(dir, file);
  }

  lemma SpecialsJoin(dir: string)
    requires PlainRoot(dir)
    ensures ShowArtJoin(dir, SpecialsPoster) == dir + ShowArtSuffix(SpecialsPoster)
  {
    TwoJoins(dir, "specials", "poster");
  }

  lemma SeasonCoverJoin(dir: string, n: nat)
    requires PlainRoot(dir)
    ensures ShowArtJoin(dir, SeasonCover(n)) == dir + ShowArtSuffix(SeasonCover(n))
  {
    SeasonJoin(dir, n, "cover");
  }

  lemma EpisodeJoin(dir: string, n: nat, e: int)
    requires PlainRoot(dir)
    ensures ShowArtJoin(dir, EpisodeCard(n, e)) == dir + ShowArtSuffix(EpisodeCard(n, e))
  {
    SeasonJoin(dir, n, "s" + IntToStr(n) + "e" + IntToStr(e));
  }

  lemma SeasonJoin(dir: string, n: int, file: string)
    requires PlainRoot(dir) && file != [] && file[0] != '/'
    ensures PathJoin(PathJoin(dir, "s" + IntToStr(n)), file) == dir + SeasonSuffix(n, file)
  {
    var x := IntToStr(n);
    var sdir := "s" + x;
    NoSlashInInt(n);
    assert sdir[|sdir| - 1] == x[|x| - 1];
    TwoJoins(dir, sdir, file);
    SlashS(x);
    Regroup(dir, "/", sdir, "/" + file);
  }

  lemma SlashS(x: string)
    ensures "/" + ("s" + x) == "/s" + x
  {
  }

  lemma Regroup(a: string, b: string, c: string, d: string)
    ensures a + b + c + d == a + (b + c + d)
  {
  }

  lemma ShowDirectoryPlain(m: Meta, root: string)
    requires PlainRoot(root)
    ensures ShowDirectory(m, root) == root + "/tv_shows/" + TitledDirectory(m)
    ensures PlainRoot(ShowDirectory(m, root))
  {
    TitledDirectoryPlain(m);
    TwoJoins(root, "tv_shows", TitledDirectory(m));
    JoinPlain(root + "/tv_shows", TitledDirectory(m));
  }

  /** Every single-kind show asset is cached under its show directory at the
      name its kind dictates: `cover`, `backdrop`, `specials/poster`,
      `s{N}/cover` or `s{N}/s{N}e{M}`. */
  lemma ShowArtPath(m: Meta, root: string)
    requires ShowArtOf(m).Some? && PlainRoot(root)
    ensures m.IsShow()
    ensures BuildAssetPath(m, root) == root + "/tv_shows/" + TitledDirectory(m) + ShowArtSuffix(ShowArtOf(m).value)
  {
    ShowArtJoins(m, root);
    ShowDirectoryPlain(m, root);
    ShowArtJoinPlain(ShowDirectory(m, root), ShowArtOf(m).value);
  }

  lemma NoSlashInInt(n: int)
    ensures IntToStr(n)[|IntToStr(n)| - 1] != '/'
  {
    var d := NatToStr(if n < 0 then -n else n);
    assert IntToStr(n)[|IntToStr(n)| - 1] == d[|d| - 1];
  }

  /** Season covers of the same show that differ in season number are cached
      at different paths. */
  lemma SeasonCoversDistinct(a: Meta, b: Meta, root: string)
    requires PlainRoot(root)
    requires ShowArtOf(a).Some? && ShowArtOf(a).value.SeasonCover?
    requires b == a.(season := b.season) && ShowArtOf(b).Some? && ShowArtOf(b).value.SeasonCover?
    requires a.season != b.season
    ensures BuildAssetPath(a, root) != BuildAssetPath(b, root)
  {
    var na, nb := a.season.value, b.season.value;
    var dir := ShowDirectory(a, root);
    assert ShowDirectory(b, root) == dir;
    ShowDirectoryPlain(a, root);
    ShowArtJoins(a, root);
    ShowArtJoins(b, root);
    SeasonCoverJoin(dir, na);
    SeasonCoverJoin(dir, nb);
    assert BuildAssetPath(a, root) == dir + SeasonSuffix(na, "cover");
    assert BuildAssetPath(b, root) == dir + SeasonSuffix(nb, "cover");
    if dir + SeasonSuffix(na, "cover") == dir + SeasonSuffix(nb, "cover") {
      PrefixCancels(dir, SeasonSuffix(na, "cover"), SeasonSuffix(nb, "cover"));
      SeasonSuffixInjective(na, nb, "cover");
    }
  }

  lemma PrefixCancels(p: string, x: string, y: string)
    requires p + x == p + y
    ensures x == y
  {
    assert x == (p + x)[|p|..];
    assert y == (p + y)[|p|..];
  }

  /** The season number is what tells two season suffixes apart. */
  lemma SeasonSuffixInjective(na: int, nb: int, file: string)
    requires SeasonSuffix(na, file) == SeasonSuffix(nb, file)
    ensures na == nb
  {
    var x, y := IntToStr(na), IntToStr(nb);
    assert |x| == |y|;
    Middle("/s", x, "/" + file);
    Middle("/s", y, "/" + file);
    assert SeasonSuffix(na, file) == "/s" + x + ("/" + file);
    assert SeasonSuffix(nb, file) == "/s" + y + ("/" + file);
    IntToStrInjective(na, nb);
  }

  /** A season-one-or-later asset that is neither a season cover nor an
      episode (and carries no other flag) is cached at the bare show
      directory itself. */
  lemma BareSeasonCollapses(m: Meta, root: string)
    requires m.season.Some? && m.season.value >= 1
    requires !m.showCoverArt && !m.showBackdrop && !m.seasonCoverArt && !Truthy(m.episode)
    ensures BuildAssetPath(m, root) == ShowDirectory(m, root)
  {
  }

  /** An asset that is none of the three kinds gets the empty path. */
  lemma UnclassifiedPath(m: Meta, root: string)
    requires !m.IsShow() && m.year == Some(0)
    ensures BuildAssetPath(m, root) == "" && JsonPath(m, root) == ".json"
  {
  }

  // ---------------------------------------------------------------- JSON record

  /** A JSON scalar, as `json.load` hands it back. */
  datatype Json = JNull | JBool(b: bool) | JInt(i: int) | JStr(s: string)

  /** A JSON object as the sequence of `data.items()`. */
  type JsonObject = seq<(string, Json)>

  function OptIntJson(x: Option<int>): Json {
    match x
    case None => JNull
    case Some(i) => JInt(i)
  }

  /** The attribute names of `MediaMetadata`, in declaration order. */
  const FieldNames: seq<string> := ["url", "source", "title", "year", "season", "episode", "show_backdrop",
                                    "show_cover_art", "season_cover_art", "uploaded_to_plex", "uploaded_datetime",
                                    "path", "metadata_path"]

  /** The object `save_to_cache` writes: every field under its Python name,
      in declaration order, the datetime as its ISO text. */
  function ToJson(m: Meta): (r: JsonObject)
    requires m.WellFormed()
    ensures |r| == |FieldNames| && forall k :: 0 <= k < |r| ==> r[k].0 == FieldNames[k]
    ensures r[10].1 == JNull <==> m.uploadedDatetime.None?
  {
    TextFields(m) + NumberFields(m) + FlagFields(m) + [DatetimeField(m)] + PathFields(m)
  }

  function TextFields(m: Meta): JsonObject {
    [("url", JStr(m.url)), ("source", JStr(m.source)), ("title", JStr(m.title))]
  }

  function NumberFields(m: Meta): JsonObject {
    [("year", OptIntJson(m.year)), ("season", OptIntJson(m.season)), ("episode", OptIntJson(m.episode))]
  }

  function FlagFields(m: Meta): JsonObject {
    [("show_backdrop", JBool(m.showBackdrop)), ("show_cover_art", JBool(m.showCoverArt)),
     ("season_cover_art", JBool(m.seasonCoverArt)), ("uploaded_to_plex", JBool(m.uploadedToPlex))]
  }

  function DatetimeField(m: Meta): (string, Json)
    requires m.WellFormed()
  {
    ("uploaded_datetime", match m.uploadedDatetime
                          case None => JNull
                          case Some(d) => JStr(IsoFormat(d)))
  }

  function PathFields(m: Meta): JsonObject {
    [("path", JStr(m.path)), ("metadata_path", JStr(m.metadataPath))]
  }

  /** Python truthiness of a JSON value. */
  predicate JsonTruthy(v: Json) {
    match v
    case JNull => false
    case JBool(b) => b
    case JInt(i) => i != 0
    case JStr(s) => s != ""
  }

  /** The state of the `setattr` loop: the record so far, and the exception
      that stopped it, if any. */
  datatype Loaded = Loaded(meta: Meta, error: Option<Error>)

  /** One `setattr(self, key, value)` of the loading loop, with the ISO
      conversion of a truthy `uploaded_datetime`. */
  function SetAttr(m: Meta, key: string, v: Json): (r: Loaded)
    requires m.WellFormed()
    ensures r.meta.WellFormed()
    ensures r.error.Some? ==> r.meta == m
  {
    if key == "uploaded_datetime" then
      if JsonTruthy(v) then
        match v
        case JStr(s) =>
          (match FromIsoFormat(s)
           case Some(d) => Loaded(m.(uploadedDatetime := Some(d)), None)
           case None => Loaded(m, Some(ValueError("Invalid isoformat string")))
          )
        case _ => Loaded(m, Some(TypeError("fromisoformat: argument must be str")))
      else if v.JNull? then Loaded(m.(uploadedDatetime := None), None)
      else Loaded(m, None)
    else if key == "url" && v.JStr? then Loaded(m.(url := v.s), None)
    else if key == "source" && v.JStr? then Loaded(m.(source := v.s), None)
    else if key == "title" && v.JStr? then Loaded(m.(title := v.s), None)
    else if key == "path" && v.JStr? then Loaded(m.(path := v.s), None)
    else if key == "metadata_path" && v.JStr? then Loaded(m.(metadataPath := v.s), None)
    else if key == "year" && (v.JNull? || v.JInt?) then
      Loaded(m.(year := if v.JInt? then Some(v.i) else None), None)
    else if key == "season" && (v.JNull? || v.JInt?) then
      Loaded(m.(season := if v.JInt? then Some(v.i) else None), None)
    else if key == "episode" && (v.JNull? || v.JInt?) then
      Loaded(m.(episode := if v.JInt? then Some(v.i) else None), None)
    else if key == "show_backdrop" && v.JBool? then Loaded(m.(showBackdrop := v.b), None)
    else if key == "show_cover_art" && v.JBool? then Loaded(m.(showCoverArt := v.b), None)
    else if key == "season_cover_art" && v.JBool? then Loaded(m.(seasonCoverArt := v.b), None)
    else if key == "uploaded_to_plex" && v.JBool? then Loaded(m.(uploadedToPlex := v.b), None)
    else Loaded(m, None)
  }

  /** The `setattr` loop over `data.items()`, stopping at the first exception. */
  function ApplyRecord(m: Meta, data: JsonObject): (r: Loaded)
    requires m.WellFormed()
    ensures r.meta.WellFormed()
  {
    if data == [] then Loaded(m, None)
    else
      var prev := ApplyRecord(m, data[..|data| - 1]);
      if prev.error.Some? then prev
      else SetAttr(prev.meta, data[|data| - 1].0, data[|data| - 1].1)
  }

  /** The loop over `a + b` is the loop over `a`, then, unless that raised,
      the loop over `b` from where it left off. */
  lemma {:induction false} ApplyConcat(m: Meta, a: JsonObject, b: JsonObject)
    requires m.WellFormed()
    ensures var first := ApplyRecord(m, a);
            ApplyRecord(m, a + b) == if first.error.Some? then first else ApplyRecord(first.meta, b)
    decreases |b|
  {
    if b == [] {
      assert a + b == a;
    } else {
      var b0 := b[..|b| - 1];
      ApplyConcat(m, a, b0);
      assert (a + b)[..|a + b| - 1] == a + b0;
      assert (a + b)[|a + b| - 1] == b[|b| - 1];
    }
  }

  /** One pair of the loop on its own. */
  lemma ApplyOne(m: Meta, key: string, v: Json)
    requires m.WellFormed()
    ensures ApplyRecord(m, [(key, v)]) == SetAttr(m, key, v)
  {
    assert [(key, v)][..0] == [];
  }

  /** Applying the writes of `TextFields` etc. one pair at a time. */
  lemma ApplyPairs(m: Meta, data: JsonObject, ms: seq<Meta>)
    requires m.WellFormed() && |ms| == |data| + 1 && ms[0] == m
    requires forall i :: 0 <= i < |ms| ==> ms[i].WellFormed()
    requires forall i :: 0 <= i < |data| ==> SetAttr(ms[i], data[i].0, data[i].1) == Loaded(ms[i + 1], None)
    ensures ApplyRecord(m, data) == Loaded(ms[|data|], None)
    decreases |data|
  {
    if data != [] {
      var n := |data| - 1;
      ApplyPairs(m, data[..n], ms[..n + 1]);
    }
  }

  lemma SetAttrText(m: Meta, x: string)
    requires m.WellFormed()
    ensures SetAttr(m, "url", JStr(x)) == Loaded(m.(url := x), None)
    ensures SetAttr(m, "source", JStr(x)) == Loaded(m.(source := x), None)
    ensures SetAttr(m, "title", JStr(x)) == Loaded(m.(title := x), None)
    ensures SetAttr(m, "path", JStr(x)) == Loaded(m.(path := x), None)
    ensures SetAttr(m, "metadata_path", JStr(x)) == Loaded(m.(metadataPath := x), None)
  {
  }

  lemma SetAttrNumber(m: Meta, x: Option<int>)
    requires m.WellFormed()
    ensures SetAttr(m, "year", OptIntJson(x)) == Loaded(m.(year := x), None)
    ensures SetAttr(m, "season", OptIntJson(x)) == Loaded(m.(season := x), None)
    ensures SetAttr(m, "episode", OptIntJson(x)) == Loaded(m.(episode := x), None)
  {
  }

  lemma SetAttrFlag(m: Meta, b: bool)
    requires m.WellFormed()
    ensures SetAttr(m, "show_backdrop", JBool(b)) == Loaded(m.(showBackdrop := b), None)
    ensures SetAttr(m, "show_cover_art", JBool(b)) == Loaded(m.(showCoverArt := b), None)
    ensures SetAttr(m, "season_cover_art", JBool(b)) == Loaded(m.(seasonCoverArt := b), None)
    ensures SetAttr(m, "uploaded_to_plex", JBool(b)) == Loaded(m.(uploadedToPlex := b), None)
  {
  }

  lemma SetAttrDatetime(m: Meta, d: Option<DateTime>)
    requires m.WellFormed() && (d.Some? ==> d.value.Valid())
    ensures SetAttr(m, "uploaded_datetime", match d case None => JNull case Some(t) => JStr(IsoFormat(t)))
            == Loaded(m.(uploadedDatetime := d), None)
  {
    if d.Some? {
      IsoRoundTrip(d.value);
    }
  }

  lemma TextRoundTrip(before: Meta, m: Meta)
    requires before.WellFormed()
    ensures ApplyRecord(before, TextFields(m)) ==
            Loaded(before.(url := m.url, source := m.source, title := m.title), None)
  {
    var a := before.(url := m.url);
    var b := a.(source := m.source);
    SetAttrText(before, m.url);
    SetAttrText(a, m.source);
    SetAttrText(b, m.title);
    ApplyPairs(before, TextFields(m), [before, a, b, b.(title := m.title)]);
  }

  lemma NumberRoundTrip(before: Meta, m: Meta)
    requires before.WellFormed()
    ensures ApplyRecord(before, NumberFields(m)) ==
            Loaded(before.(year := m.year, season := m.season, episode := m.episode), None)
  {
    var a := before.(year := m.year);
    var b := a.(season := m.season);
    SetAttrNumber(before, m.year);
    SetAttrNumber(a, m.season);
    SetAttrNumber(b, m.episode);
    ApplyPairs(before, NumberFields(m), [before, a, b, b.(episode := m.episode)]);
  }

  lemma FlagRoundTrip(before: Meta, m: Meta)
    requires before.WellFormed()
    ensures ApplyRecord(before, FlagFields(m)) ==
            Loaded(before.(showBackdrop := m.showBackdrop, showCoverArt := m.showCoverArt,
                           seasonCoverArt := m.seasonCoverArt, uploadedToPlex := m.uploadedToPlex), None)
  {
    var data := FlagFields(m);
    var b := before.(showBackdrop := m.showBackdrop, showCoverArt := m.showCoverArt);
    assert data == data[..2] + data[2..];
    ShowFlagsRoundTrip(before, m);
    AssetFlagsRoundTrip(b, m);
    ApplyConcat(before, data[..2], data[2..]);
  }

  lemma ShowFlagsRoundTrip(before: Meta, m: Meta)
    requires before.WellFormed()
    ensures ApplyRecord(before, FlagFields(m)[..2]) ==
            Loaded(before.(showBackdrop := m.showBackdrop, showCoverArt := m.showCoverArt), None)
  {
    var a := before.(showBackdrop := m.showBackdrop);
    SetAttrFlag(before, m.showBackdrop);
    SetAttrFlag(a, m.showCoverArt);
    ApplyPairs(before, FlagFields(m)[..2], [before, a, a.(showCoverArt := m.showCoverArt)]);
  }

  lemma AssetFlagsRoundTrip(before: Meta, m: Meta)
    requires before.WellFormed()
    ensures ApplyRecord(before, FlagFields(m)[2..]) ==
            Loaded(before.(seasonCoverArt := m.seasonCoverArt, uploadedToPlex := m.uploadedToPlex), None)
  {
    var a := before.(seasonCoverArt := m.seasonCoverArt);
    SetAttrFlag(before, m.seasonCoverArt);
    SetAttrFlag(a, m.uploadedToPlex);
    ApplyPairs(before, FlagFields(m)[2..], [before, a, a.(uploadedToPlex := m.uploadedToPlex)]);
  }

  lemma PathRoundTrip(before: Meta, m: Meta)
    requires before.WellFormed()
    ensures ApplyRecord(before, PathFields(m)) ==
            Loaded(before.(path := m.path, metadataPath := m.metadataPath), None)
  {
    var a := before.(path := m.path);
    SetAttrText(before, m.path);
    SetAttrText(a, m.metadataPath);
    ApplyPairs(before, PathFields(m), [before, a, a.(metadataPath := m.metadataPath)]);
  }

  /** Loading the record `save_to_cache` wrote restores every field of the
      saved asset, whatever the fields held before. */
  lemma RecordRoundTrip(before: Meta, m: Meta)
    requires before.WellFormed() && m.WellFormed()
    ensures ApplyRecord(before, ToJson(m)) == Loaded(m, None)
  {
    var m1 := before.(url := m.url, source := m.source, title := m.title);
    var m2 := m1.(year := m.year, season := m.season, episode := m.episode);
    var m3 := m2.(showBackdrop := m.showBackdrop, showCoverArt := m.showCoverArt,
                  seasonCoverArt := m.seasonCoverArt, uploadedToPlex := m.uploadedToPlex);
    var m4 := m3.(uploadedDatetime := m.uploadedDatetime);
    TextRoundTrip(before, m);
    NumberRoundTrip(m1, m);
    FlagRoundTrip(m2, m);
    SetAttrDatetime(m3, m.uploadedDatetime);
    ApplyOne(m3, DatetimeField(m).0, DatetimeField(m).1);
    PathRoundTrip(m4, m);
    var t, n, f, d, p := TextFields(m), NumberFields(m), FlagFields(m), [DatetimeField(m)], PathFields(m);
    ApplyConcat(before, t, n);
    ApplyConcat(before, t + n, f);
    ApplyConcat(before, t + n + f, d);
    ApplyConcat(before, t + n + f + d, p);
  }
}
