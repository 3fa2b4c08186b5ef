/** Finding a poster's media in the Plex library sections and uploading the
    art to it (plex_poster_set_helper.py:334-381, 422-507). The Plex server
    is a value: what `lib.get` finds, which collections a section lists,
    which seasons and episodes a show has, and which uploads it refuses. */
module Library {
  import opened Seqs
  import opened Wrappers
  import opened PyStr
  import opened Media

  /** A Plex item: a show, a movie or a collection. */
  datatype Item = Item(id: nat, title: string, sectionTitle: string)

  /** The arguments of one `lib.get` call: a title with an optional year,
      or the list of words the colon fallback passes. */
  datatype Query = Titled(title: string, year: Option<int>) | Words(words: seq<string>)

  /** One library section: what `get` returns for each query (a query
      missing from the map raises NotFound) and the collections it lists
      (None when `collections()` raises). */
  datatype Section = Section(title: string, lookup: map<Query, Item>, collections: Option<seq<Item>>)

  /** The argument of `show.season(...)`: a number or a title. */
  datatype SeasonKey = SeasonNumber(n: int) | SeasonTitle(name: string)

  /** What an upload is sent to. */
  datatype Target = Whole(item: Item) | SeasonOf(show: Item, key: SeasonKey) | EpisodeOf(show: Item, season: int, episode: int)

  /** `uploadPoster`/`uploadArt` take either a url or a file path. */
  datatype Image = Image(url: Option<string>, filepath: Option<string>)

  /** The observable effects, in order: upload calls, the rate-limiting
      pause and downloads. */
  datatype Event = PosterUpload(target: Target, image: Image) | ArtUpload(target: Target, image: Image)
                 | Pause(seconds: nat) | Download(url: string)

  /** The server side: the seasons (by key) and episodes each show has, and
      the upload calls that raise. */
  datatype Plex = Plex(seasons: set<(Item, SeasonKey)>, episodes: set<(Item, int, int)>, refused: set<Event>)

  // ---------------------------------------------------------------- find_in_library

  /** What one section contributes to `find_in_library`: the exact lookup,
      then, when that raised and the title contains ": ", a second lookup
      with `title.split(" ")` (the code indexes `": "[1]`, a space). A
      failing second lookup lands in the outer `except`, so the section
      contributes nothing. */
  function SectionMatch(sec: Section, title: string, year: Option<int>): Option<Item> {
    var exact := Titled(title, year);
    if exact in sec.lookup then Some(sec.lookup[exact])
    else if Contains(title, ": ") then
      var retry := Words(Split(title, " "));
      if retry in sec.lookup then Some(sec.lookup[retry]) else None
    else None
  }

  /** The matches of every section, in section order. */
  function Matches(sections: seq<Section>, title: string, year: Option<int>): seq<Item> {
    if sections == [] then []
    else
      var prev := Matches(sections[..|sections| - 1], title, year);
      match SectionMatch(sections[|sections| - 1], title, year)
      case Some(item) => prev + [item]
      case None => prev
  }

  /** A section with no match does not stop the sections after it: the
      matches of two runs of sections are the matches of each in turn. */
  lemma {:induction false} MatchesConcat(a: seq<Section>, b: seq<Section>, title: string, year: Option<int>)
    ensures Matches(a + b, title, year) == Matches(a, title, year) + Matches(b, title, year)
    decreases |b|
  {
    if b == [] {
      assert a + b == a;
    } else {
      var b0 := b[..|b| - 1];
      MatchesConcat(a, b0, title, year);
      assert (a + b)[..|a + b| - 1] == a + b0;
      assert (a + b)[|a + b| - 1] == b[|b| - 1];
    }
  }

  /** Each match comes from a section, at most one per section, and every
      section that matches contributes its item. */
  lemma {:induction false} MatchesComplete(sections: seq<Section>, title: string, year: Option<int>)
    ensures |Matches(sections, title, year)| <= |sections|
    ensures forall x :: x in Matches(sections, title, year) <==>
              exists j :: 0 <= j < |sections| && SectionMatch(sections[j], title, year) == Some(x)
  {
    if sections != [] {
      var init := sections[..|sections| - 1];
      MatchesComplete(init, title, year);
      forall x
        ensures x in Matches(sections, title, year) <==>
                exists j :: 0 <= j < |sections| && SectionMatch(sections[j], title, year) == Some(x)
      {
        if x in Matches(init, title, year) {
          var j :| 0 <= j < |init| && SectionMatch(init[j], title, year) == Some(x);
          assert sections[j] == init[j];
        }
        if exists j :: 0 <= j < |sections| && SectionMatch(sections[j], title, year) == Some(x) {
          var j :| 0 <= j < |sections| && SectionMatch(sections[j], title, year) == Some(x);
          if j < |init| {
            assert init[j] == sections[j];
          }
        }
      }
    }
  }

  /** `find_in_library`: the matches of all sections in order, or None (not
      an empty list) when there are none. */
  method FindInLibrary(sections: seq<Section>, title: string, year: Option<int>) returns (r: Option<seq<Item>>)
    ensures Matches(sections, title, year) == [] ==> r == None
    ensures Matches(sections, title, year) != [] ==> r == Some(Matches(sections, title, year))
  {
    var items: seq<Item> := [];
    for i := 0 to |sections|
      invariant items == Matches(sections[..i], title, year)
    {
      TakeSnoc(sections, i);
      var found := SectionMatch(sections[i], title, year);
      if found.Some? {
        items := items + [found.value];
      }
    }
    TakeAll(sections);
    if items == [] {
      return None;
    }
    return Some(items);
  }

  /** The colon fallback does not look the title up by its suffix: for
      "Star Wars: Andor" it asks for the words ["Star", "Wars:", "Andor"],
      so a section that knows the show only as "Andor" yields nothing. */
  lemma ColonFallbackAsksForWords(sec: Section)
    requires sec.lookup.Keys == {Titled("Andor", None)}
    ensures SectionMatch(sec, "Star Wars: Andor", None) == None
  {
    StarWarsWords();
    assert Titled("Star Wars: Andor", None) != Titled("Andor", None);
    assert Words(["Star", "Wars:", "Andor"]) != Titled("Andor", None);
  }

  lemma StarWarsWords()
    ensures Split("Star Wars: Andor", " ") == ["Star", "Wars:", "Andor"]
  {
    var u := "Star" + [' '] + ("Wars:" + [' '] + "Andor");
    assert |u| == 16;
    assert "Star Wars: Andor" == u;
    SplitThreeWords("Star", "Wars:", "Andor");
  }

  lemma SplitThreeWords(a: string, b: string, c: string)
    requires ' ' !in a && ' ' !in b && ' ' !in c
    ensures Split(a + [' '] + (b + [' '] + c), [' ']) == [a, b, c]
  {
    SplitAtChar(a, ' ', b + [' '] + c);
    SplitAtChar(b, ' ', c);
    SplitNoChar(c, ' ');
  }

  // ---------------------------------------------------------------- find_collection

  /** The collections of `cs` whose title is exactly `title`. */
  function TitledCollections(cs: seq<Item>, title: string): seq<Item> {
    if cs == [] then []
    else
      var prev := TitledCollections(cs[..|cs| - 1], title);
      if cs[|cs| - 1].title == title then prev + [cs[|cs| - 1]] else prev
  }

  /** The collections `find_collection` gathers: every section in order,
      skipping a section whose `collections()` raises. */
  function CollectionMatches(sections: seq<Section>, title: string): seq<Item> {
    if sections == [] then []
    else
      var prev := CollectionMatches(sections[..|sections| - 1], title);
      match sections[|sections| - 1].collections
      case Some(cs) => prev + TitledCollections(cs, title)
      case None => prev
  }

  /** A collection is among the matches exactly when some readable section
      lists it and its title equals the poster's, character for character. */
  lemma {:induction false} CollectionMatchesExact(sections: seq<Section>, title: string)
    ensures forall c :: c in CollectionMatches(sections, title) <==>
              c.title == title &&
              exists j :: 0 <= j < |sections| && sections[j].collections.Some? && c in sections[j].collections.value
  {
    if sections != [] {
      var init := sections[..|sections| - 1];
      var last := sections[|sections| - 1];
      CollectionMatchesExact(init, title);
      if last.collections.Some? {
        TitledExact(last.collections.value, title);
      }
      forall c
        ensures c in CollectionMatches(sections, title) <==>
                c.title == title &&
                exists j :: 0 <= j < |sections| && sections[j].collections.Some? && c in sections[j].collections.value
      {
        if c in CollectionMatches(init, title) {
          var j :| 0 <= j < |init| && init[j].collections.Some? && c in init[j].collections.value;
          assert sections[j] == init[j];
        }
        if c.title == title &&
           exists j :: 0 <= j < |sections| && sections[j].collections.Some? && c in sections[j].collections.value {
          var j :| 0 <= j < |sections| && sections[j].collections.Some? && c in sections[j].collections.value;
          if j < |init| {
            assert init[j] == sections[j];
          }
        }
      }
    }
  }

  lemma {:induction false} TitledExact(cs: seq<Item>, title: string)
    ensures forall c :: c in TitledCollections(cs, title) <==> c in cs && c.title == title
  {
    if cs != [] {
      TitledExact(cs[..|cs| - 1], title);
      assert cs == cs[..|cs| - 1] + [cs[|cs| - 1]];
    }
  }

  /** `find_collection`: the exact-title collections of all sections, or None. */
  method FindCollection(sections: seq<Section>, title: string) returns (r: Option<seq<Item>>)
    ensures CollectionMatches(sections, title) == [] ==> r == None
    ensures CollectionMatches(sections, title) != [] ==> r == Some(CollectionMatches(sections, title))
  {
    var found: seq<Item> := [];
    for i := 0 to |sections|
      invariant found == CollectionMatches(sections[..i], title)
    {
      TakeSnoc(sections, i);
      match sections[i].collections {
        case None =>
        case Some(cs) =>
          ghost var before := found;
          for k := 0 to |cs|
            invariant found == before + TitledCollections(cs[..k], title)
          {
            TakeSnoc(cs, k);
            if cs[k].title == title {
              found := found + [cs[k]];
            }
          }
          TakeAll(cs);
      }
    }
    TakeAll(sections);
    if found == [] {
      return None;
    }
    return Some(found);
  }

  // ---------------------------------------------------------------- upload_tv_poster

  /** How `upload_tv_poster` picks the upload target for one found show. */
  datatype Resolution =
    | Resolved(target: Target)
    | Skipped    // `continue`: unknown media type, or the episode is missing
    | Abandoned  // the outer `except`: a missing season, or no target at all

  function ResolveTv(m: Meta, show: Item, plex: Plex): Resolution {
    if m.showCoverArt then Resolved(Whole(show))
    else if m.season == Some(0) then
      if (show, SeasonTitle("Specials")) in plex.seasons then Resolved(SeasonOf(show, SeasonTitle("Specials")))
      else Abandoned
    else if m.showBackdrop then Resolved(Whole(show))
    else if m.season.None? then Skipped
    else if m.season.value >= 1 then
      if m.seasonCoverArt then
        if (show, SeasonNumber(m.season.value)) in plex.seasons then
          Resolved(SeasonOf(show, SeasonNumber(m.season.value)))
        else Abandoned
      else if Truthy(m.episode) then
        if (show, m.season.value, m.episode.value) in plex.episodes then
          Resolved(EpisodeOf(show, m.season.value, m.episode.value))
        else Skipped
      else Abandoned  // `upload_target` was never bound: the NameError is caught
    else Abandoned
  }

  /** The upload call for a resolved target: backdrops use `uploadArt`. */
  function UploadCall(m: Meta, target: Target, image: Image): Event {
    if m.showBackdrop then ArtUpload(target, image) else PosterUpload(target, image)
  }

  /** The posterdb rate limit after an upload attempt. */
  function PauseAfter(m: Meta): seq<Event> {
    if m.source == "posterdb" then [Pause(6)] else []
  }

  function TvShowEvents(m: Meta, show: Item, image: Image, plex: Plex): seq<Event> {
    match ResolveTv(m, show, plex)
    case Resolved(t) => [UploadCall(m, t, image)] + PauseAfter(m)
    case _ => []
  }

  /** The upload for this show was attempted and raised. */
  predicate TvShowFailed(m: Meta, show: Item, image: Image, plex: Plex) {
    ResolveTv(m, show, plex).Resolved? && UploadCall(m, ResolveTv(m, show, plex).target, image) in plex.refused
  }

  function TvEvents(m: Meta, shows: seq<Item>, image: Image, plex: Plex): seq<Event> {
    if shows == [] then []
    else TvEvents(m, shows[..|shows| - 1], image, plex) + TvShowEvents(m, shows[|shows| - 1], image, plex)
  }

  /** Every single-kind show asset is sent where its kind says: covers and
      backdrops to the show (backdrops with `uploadArt`), the specials
      poster to the season titled "Specials", a season cover to season N
      and a title card to episode M of season N, when the show has them. */
  lemma ShowArtTargets(m: Meta, show: Item, image: Image, plex: Plex)
    requires ShowArtOf(m).Some?
    ensures match ShowArtOf(m).value
            case ShowCover =>
              TvShowEvents(m, show, image, plex) == [PosterUpload(Whole(show), image)] + PauseAfter(m)
            case ShowBackdropArt =>
              TvShowEvents(m, show, image, plex) == [ArtUpload(Whole(show), image)] + PauseAfter(m)
            case SpecialsPoster =>
              TvShowEvents(m, show, image, plex) ==
              if (show, SeasonTitle("Specials")) in plex.seasons
              then [PosterUpload(SeasonOf(show, SeasonTitle("Specials")), image)] + PauseAfter(m) else []
            case SeasonCover(n) =>
              TvShowEvents(m, show, image, plex) ==
              if (show, SeasonNumber(n)) in plex.seasons
              then [PosterUpload(SeasonOf(show, SeasonNumber(n)), image)] + PauseAfter(m) else []
            case EpisodeCard(n, e) =>
              TvShowEvents(m, show, image, plex) ==
              if (show, n, e) in plex.episodes
              then [PosterUpload(EpisodeOf(show, n, e), image)] + PauseAfter(m) else []
  {
  }

  /** `upload_tv_poster`: one upload per found show that resolves to a
      target, each followed by the posterdb pause; the answer is True
      exactly when some show was found and no upload call raised (a show
      whose target could not be resolved leaves it True). */
  method UploadTvPoster(m: Meta, image: Image, tv: seq<Section>, plex: Plex) returns (ok: bool, events: seq<Event>)
    ensures events == TvEvents(m, Matches(tv, m.title, m.year), image, plex)
    ensures ok <==> Matches(tv, m.title, m.year) != [] &&
                    forall show :: show in Matches(tv, m.title, m.year) ==> !TvShowFailed(m, show, image, plex)
  {
    var found := FindInLibrary(tv, m.title, m.year);
    if found.None? {
      return false, [];
    }
    var shows := found.value;
    ok := true;
    events := [];
    for i := 0 to |shows|
      invariant events == TvEvents(m, shows[..i], image, plex)
      invariant ok <==> forall k :: 0 <= k < i ==> !TvShowFailed(m, shows[k], image, plex)
    {
      TakeSnoc(shows, i);
      ghost var prev := events;
      var resolution := ResolveTv(m, shows[i], plex);
      if resolution.Resolved? {
        var call := UploadCall(m, resolution.target, image);
        events := events + [call];
        if call in plex.refused {
          ok := false;
        }
        events := events + PauseAfter(m);
        Assoc(prev, [call], PauseAfter(m));
      } else {
        AppendEmpty(prev);
      }
      assert events == prev + TvShowEvents(m, shows[i], image, plex);
    }
    TakeAll(shows);
    forall show | show in shows
      ensures exists k :: 0 <= k < |shows| && shows[k] == show
    {
      var k :| 0 <= k < |shows| && shows[k] == show;
    }
  }

  // ---------------------------------------------------------------- movies and collections

  function MovieEvents(m: Meta, movies: seq<Item>, image: Image, plex: Plex): seq<Event> {
    if movies == [] then []
    else
      var call := PosterUpload(Whole(movies[0]), image);
      if call in plex.refused then [call] else [call] + PauseAfter(m)
  }

  /** `upload_movie_poster`: the `return` inside the loop means only the first
      found movie is attempted; the pause follows a successful posterdb
      upload only. */
  method UploadMoviePoster(m: Meta, image: Image, movies: seq<Section>, plex: Plex) returns (ok: bool, events: seq<Event>)
    ensures events == MovieEvents(m, Matches(movies, m.title, m.year), image, plex)
    ensures ok <==> Matches(movies, m.title, m.year) != [] &&
                    PosterUpload(Whole(Matches(movies, m.title, m.year)[0]), image) !in plex.refused
    ensures forall e :: e in events && e.PosterUpload? ==> e.target == Whole(Matches(movies, m.title, m.year)[0])
  {
    var found := FindInLibrary(movies, m.title, m.year);
    if found.None? {
      return false, [];
    }
    var call := PosterUpload(Whole(found.value[0]), image);
    if call in plex.refused {
      return false, [call];
    }
    return true, [call] + PauseAfter(m);
  }

  function CollectionEvents(m: Meta, cs: seq<Item>, image: Image, plex: Plex): seq<Event> {
    if cs == [] then []
    else
      var call := PosterUpload(Whole(cs[|cs| - 1]), image);
      CollectionEvents(m, cs[..|cs| - 1], image, plex) +
      (if call in plex.refused then [call] else [call] + PauseAfter(m))
  }

  /** `upload_collection_poster`: every matching collection in every section
      gets the poster; True exactly when one matched and none refused it. */
  method UploadCollectionPoster(m: Meta, image: Image, movies: seq<Section>, plex: Plex)
    returns (ok: bool, events: seq<Event>)
    ensures events == CollectionEvents(m, CollectionMatches(movies, m.title), image, plex)
    ensures ok <==> CollectionMatches(movies, m.title) != [] &&
                    forall c :: c in CollectionMatches(movies, m.title) ==> PosterUpload(Whole(c), image) !in plex.refused
  {
    var found := FindCollection(movies, m.title);
    if found.None? {
      return false, [];
    }
    var cs := found.value;
    ok := true;
    events := [];
    for i := 0 to |cs|
      invariant events == CollectionEvents(m, cs[..i], image, plex)
      invariant ok <==> forall k :: 0 <= k < i ==> PosterUpload(Whole(cs[k]), image) !in plex.refused
    {
      TakeSnoc(cs, i);
      var call := PosterUpload(Whole(cs[i]), image);
      if call in plex.refused {
        ok := false;
        events := events + [call];
      } else {
        events := events + [call] + PauseAfter(m);
      }
    }
    TakeAll(cs);
    forall c | c in cs
      ensures exists k :: 0 <= k < |cs| && cs[k] == c
    {
      var k :| 0 <= k < |cs| && cs[k] == c;
    }
  }

  const NoTvLibraries := "No TV libraries initialized. Verify the 'tv_library' in config.json."
  const NoMovieLibraries := "No Movies libraries initialized. Verify the 'movie_library' in config.json."

  /** `check_libraries`: the warnings it prints, in order, and its answer. */
  function CheckLibraries(tv: seq<Section>, movies: seq<Section>): (r: (bool, seq<string>))
    ensures r.0 <==> |tv| > 0 && |movies| > 0
    ensures r.0 <==> r.1 == []
    ensures (NoTvLibraries in r.1 <==> tv == []) && (NoMovieLibraries in r.1 <==> movies == [])
    ensures |r.1| <= 2 && (|r.1| == 2 ==> r.1 == [NoTvLibraries, NoMovieLibraries])
  {
    var warnings := (if tv == [] then [NoTvLibraries] else []) + (if movies == [] then [NoMovieLibraries] else []);
    (tv != [] && movies != [], warnings)
  }
}
