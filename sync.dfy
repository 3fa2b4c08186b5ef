/** The cache-then-upload sequence of `cache_collection`, `cache_movie` and
    `cache_tv`, and `set_posters`, which runs it (or a direct upload) over
    a scraped set (plex_poster_set_helper.py:510-620). Downloads come from
    a fetch oracle; the file-type sniffer is a parameter. */
module Sync {
  import opened Seqs
  import opened Wrappers
  import opened Media
  import opened Asset
  import opened Library
  import opened PosterDb

  /** Which uploader a poster goes to. */
  datatype Category = CollectionArt | MovieArt | TvArt

  /** What `requests.get` did: it raised, or it answered with a status and
      a body. */
  datatype Fetch = Raised | Response(status: int, content: seq<byte>)

  /** A `Response` is truthy when its status is below 400. */
  predicate ResponseTruthy(f: Fetch) {
    f.Response? && f.status < 400
  }

  /** What an uploader answered, and the calls and pauses it made. */
  datatype Answer = Answer(ok: bool, events: seq<Event>)

  /** The three uploaders as one oracle, by category. */
  type Uploader = (Category, Meta, Image) -> Answer

  /** The surroundings of a run: the cache root, the uploaders, the
      downloader and the file-type sniffer. */
  datatype Env = Env(root: string, upload: Uploader, fetch: string -> Fetch, detect: seq<byte> -> seq<string>)

  // ---------------------------------------------------------------- the library's uploaders

  /** The answer of the uploader for the category. */
  predicate Uploaded(cat: Category, m: Meta, image: Image, tv: seq<Section>, movies: seq<Section>, plex: Plex) {
    match cat
    case CollectionArt =>
      CollectionMatches(movies, m.title) != [] &&
      forall c :: c in CollectionMatches(movies, m.title) ==> PosterUpload(Whole(c), image) !in plex.refused
    case MovieArt =>
      Matches(movies, m.title, m.year) != [] &&
      PosterUpload(Whole(Matches(movies, m.title, m.year)[0]), image) !in plex.refused
    case TvArt =>
      Matches(tv, m.title, m.year) != [] &&
      forall show :: show in Matches(tv, m.title, m.year) ==> !TvShowFailed(m, show, image, plex)
  }

  /** The calls and pauses the uploader for the category makes. */
  function UploadEvents(cat: Category, m: Meta, image: Image, tv: seq<Section>, movies: seq<Section>, plex: Plex): seq<Event> {
    match cat
    case CollectionArt => CollectionEvents(m, CollectionMatches(movies, m.title), image, plex)
    case MovieArt => MovieEvents(m, Matches(movies, m.title, m.year), image, plex)
    case TvArt => TvEvents(m, Matches(tv, m.title, m.year), image, plex)
  }

  /** The uploaders of the library module over one Plex server. */
  function LibraryUploader(tv: seq<Section>, movies: seq<Section>, plex: Plex): Uploader {
    (cat: Category, m: Meta, image: Image) => Answer(Uploaded(cat, m, image, tv, movies, plex), UploadEvents(cat, m, image, tv, movies, plex))
  }

  /** `upload_collection_poster`, `upload_movie_poster` or `upload_tv_poster`
      answer as `LibraryUploader` says. */
  method Upload(cat: Category, m: Meta, image: Image, tv: seq<Section>, movies: seq<Section>, plex: Plex)
    returns (ans: Answer)
    ensures ans == LibraryUploader(tv, movies, plex)(cat, m, image)
  {
    var ok, events;
    match cat {
      case CollectionArt => ok, events := UploadCollectionPoster(m, image, movies, plex);
      case MovieArt => ok, events := UploadMoviePoster(m, image, movies, plex);
      case TvArt => ok, events := UploadTvPoster(m, image, tv, plex);
    }
    ans := Answer(ok, events);
  }

  /** The library's uploaders never download. */
  lemma NoDownloadInUploads(tv: seq<Section>, movies: seq<Section>, plex: Plex, cat: Category, m: Meta, image: Image, url: string)
    ensures Download(url) !in LibraryUploader(tv, movies, plex)(cat, m, image).events
  {
    match cat
    case CollectionArt => CollectionEventsNoDownload(m, CollectionMatches(movies, m.title), image, plex, url);
    case MovieArt =>
    case TvArt => TvEventsNoDownload(m, Matches(tv, m.title, m.year), image, plex, url);
  }

  lemma {:induction false} CollectionEventsNoDownload(m: Meta, cs: seq<Item>, image: Image, plex: Plex, url: string)
    ensures Download(url) !in CollectionEvents(m, cs, image, plex)
  {
    if cs != [] {
      CollectionEventsNoDownload(m, cs[..|cs| - 1], image, plex, url);
    }
  }

  lemma {:induction false} TvEventsNoDownload(m: Meta, shows: seq<Item>, image: Image, plex: Plex, url: string)
    ensures Download(url) !in TvEvents(m, shows, image, plex)
  {
    if shows != [] {
      TvEventsNoDownload(m, shows[..|shows| - 1], image, plex, url);
    }
  }

  // ---------------------------------------------------------------- one asset

  /** The asset, the two maps of the cache and what the call returned. */
  datatype Outcome = Outcome(meta: Meta, records: map<string, JsonObject>, files: map<string, seq<byte>>,
                             result: Result<seq<Event>>)

  /** The upload from the cached file, after `pre`; on success the flag is
      set and the record saved again. */
  function UploadCached(env: Env, cat: Category, m: Meta, records: map<string, JsonObject>,
                        files: map<string, seq<byte>>, pre: seq<Event>): (r: Outcome)
    requires m.WellFormed()
    ensures r.meta.WellFormed()
  {
    var answer := env.upload(cat, m, Image(None, Some(m.path)));
    if answer.ok then
      var done := m.(uploadedToPlex := true);
      Outcome(done, records[JsonPath(done, env.root) := ToJson(done)], files, Success(pre + answer.events))
    else Outcome(m, records, files, Success(pre + answer.events))
  }

  /** `save_asset` on values. */
  function SavedAsset(env: Env, m: Meta, records: map<string, JsonObject>, files: map<string, seq<byte>>,
                      data: seq<byte>): (r: Outcome)
    requires m.WellFormed()
    ensures r.meta.WellFormed()
  {
    var base := BuildAssetPath(m, env.root);
    var extensions := env.detect(Head(data, 128));
    if |extensions| == 0 then Outcome(m, records, files, Success([]))
    else
      var image := base + "." + extensions[0];
      var m1 := m.(path := image, metadataPath := base + ".json");
      Outcome(m1, records[base + ".json" := ToJson(m1)], files[image := data], Success([]))
  }

  /** One `cache_*` call. A record under the asset's JSON path is loaded
      (a load error escapes); an asset already uploaded is left alone and
      one not yet uploaded is uploaded from its cached file. Without a
      record the image is fetched: a fetch that raised leaves `response`
      unbound, a 200 answer is saved and uploaded, any other answer only
      gets a message. */
  function CacheStep(env: Env, cat: Category, m: Meta, records: map<string, JsonObject>,
                     files: map<string, seq<byte>>): (r: Outcome)
    requires m.WellFormed()
    ensures r.meta.WellFormed()
  {
    var p := JsonPath(m, env.root);
    if p in records then FromRecord(env, cat, ApplyRecord(m, records[p]), records, files)
    else FromFetch(env, cat, m, env.fetch(m.url), records, files)
  }

  /** The branch of `cache_*` after `load_from_cache` found a record. */
  function FromRecord(env: Env, cat: Category, st: Loaded, records: map<string, JsonObject>,
                      files: map<string, seq<byte>>): (r: Outcome)
    requires st.meta.WellFormed()
    ensures r.meta.WellFormed()
  {
    if st.error.Some? then Outcome(st.meta, records, files, Failure(st.error.value))
    else if st.meta.uploadedToPlex then Outcome(st.meta, records, files, Success([]))
    else UploadCached(env, cat, st.meta, records, files, [])
  }

  /** The branch of `cache_*` that downloads the image. */
  function FromFetch(env: Env, cat: Category, m: Meta, response: Fetch, records: map<string, JsonObject>,
                     files: map<string, seq<byte>>): (r: Outcome)
    requires m.WellFormed()
    ensures r.meta.WellFormed()
  {
    if response.Raised? then Outcome(m, records, files, Failure(NameError("response")))
    else if response.status == 200 then
      var saved := SavedAsset(env, m, records, files, response.content);
      UploadCached(env, cat, saved.meta, saved.records, saved.files, [Download(m.url)])
    else Outcome(m, records, files, Success([Download(m.url)]))
  }

  /** `cache_collection` / `cache_movie` / `cache_tv` on the poster object. */
  method CacheAsset(env: Env, cat: Category, cache: CacheStore, poster: MediaMetadata) returns (r: Result<seq<Event>>)
    requires poster.WellFormed()
    modifies poster, cache
    ensures poster.WellFormed()
    ensures var o := CacheStep(env, cat, old(poster.Snapshot()), old(cache.records), old(cache.files));
            poster.Snapshot() == o.meta && cache.records == o.records && cache.files == o.files && r == o.result
  {
    ghost var m0, records0, files0 := poster.Snapshot(), cache.records, cache.files;
    var loaded := poster.LoadFromCache(cache, env.root);
    if loaded.Failure? {
      return Failure(loaded.error);
    }
    if loaded.value {
      assert JsonPath(m0, env.root) in records0;
      if poster.uploadedToPlex {
        return Success([]);
      }
      r := UploadFromFile(env, cat, cache, [], poster);
    } else {
      var url := poster.url;
      var response := env.fetch(url);
      if response.Raised? {
        return Failure(NameError("response"));
      }
      if response.status != 200 {
        return Success([Download(url)]);
      }
      poster.SaveAsset(cache, env.root, response.content, env.detect);
      assert poster.Snapshot() == SavedAsset(env, m0, records0, files0, response.content).meta;
      r := UploadFromFile(env, cat, cache, [Download(url)], poster);
    }
  }

  /** The upload from the cached file and, when it succeeded, the flag and
      `save_to_cache`. */
  method UploadFromFile(env: Env, cat: Category, cache: CacheStore, pre: seq<Event>, poster: MediaMetadata)
    returns (r: Result<seq<Event>>)
    requires poster.WellFormed()
    modifies poster, cache
    ensures poster.WellFormed()
    ensures var o := UploadCached(env, cat, old(poster.Snapshot()), old(cache.records), cache.files, pre);
            poster.Snapshot() == o.meta && cache.records == o.records && cache.files == old(cache.files) && r == o.result
  {
    var answer := env.upload(cat, poster.Snapshot(), Image(None, Some(poster.path)));
    if answer.ok {
      poster.uploadedToPlex := true;
      poster.SaveToCache(cache, env.root);
    }
    return Success(pre + answer.events);
  }

  // ---------------------------------------------------------------- cache properties

  /** An asset whose record says it is on Plex causes no download and no
      upload, and nothing in the cache changes. */
  lemma UploadedIsQuiet(env: Env, cat: Category, m: Meta, records: map<string, JsonObject>, files: map<string, seq<byte>>)
    requires m.WellFormed() && JsonPath(m, env.root) in records
    requires var st := ApplyRecord(m, records[JsonPath(m, env.root)]); st.error.None? && st.meta.uploadedToPlex
    ensures var o := CacheStep(env, cat, m, records, files);
            o.result == Success([]) && o.records == records && o.files == files
  {
  }

  /** An asset whose record says it is not on Plex is not downloaded again:
      the only calls are the upload from its cached file, and the files
      stay as they were. */
  lemma CachedRetriesUploadOnly(env: Env, cat: Category, m: Meta, records: map<string, JsonObject>, files: map<string, seq<byte>>)
    requires m.WellFormed() && JsonPath(m, env.root) in records
    requires var st := ApplyRecord(m, records[JsonPath(m, env.root)]); st.error.None? && !st.meta.uploadedToPlex
    ensures var st := ApplyRecord(m, records[JsonPath(m, env.root)]);
            var o := CacheStep(env, cat, m, records, files);
            o.result == Success(env.upload(cat, st.meta, Image(None, Some(st.meta.path))).events) && o.files == files
  {
    var st := ApplyRecord(m, records[JsonPath(m, env.root)]);
    var answer := env.upload(cat, st.meta, Image(None, Some(st.meta.path)));
    assert [] + answer.events == answer.events;
  }

  /** The uploaded flag is only ever set by a successful upload: when the
      call ends with the flag set that was not set before, either the
      record already said so, or the uploader answered True and the saved
      record says so. */
  lemma FlagFollowsUpload(env: Env, cat: Category, m: Meta, records: map<string, JsonObject>, files: map<string, seq<byte>>)
    requires m.WellFormed() && !m.uploadedToPlex
    requires var o := CacheStep(env, cat, m, records, files); o.meta.uploadedToPlex && o.result.Success?
    ensures var o := CacheStep(env, cat, m, records, files);
            (JsonPath(m, env.root) in records && ApplyRecord(m, records[JsonPath(m, env.root)]).meta.uploadedToPlex) ||
            (env.upload(cat, o.meta.(uploadedToPlex := false), Image(None, Some(o.meta.path))).ok &&
             JsonPath(o.meta, env.root) in o.records && o.records[JsonPath(o.meta, env.root)] == ToJson(o.meta))
  {
    var p := JsonPath(m, env.root);
    if p in records {
      StepFromRecord(env, cat, m, records, files);
      FlagRecord(env, cat, ApplyRecord(m, records[p]), records, files);
    } else {
      StepFromFetch(env, cat, m, records, files);
      FlagFetch(env, cat, m, env.fetch(m.url), records, files);
    }
  }

  lemma StepFromRecord(env: Env, cat: Category, m: Meta, records: map<string, JsonObject>, files: map<string, seq<byte>>)
    requires m.WellFormed() && JsonPath(m, env.root) in records
    ensures CacheStep(env, cat, m, records, files) ==
            FromRecord(env, cat, ApplyRecord(m, records[JsonPath(m, env.root)]), records, files)
  {
  }

  lemma StepFromFetch(env: Env, cat: Category, m: Meta, records: map<string, JsonObject>, files: map<string, seq<byte>>)
    requires m.WellFormed() && JsonPath(m, env.root) !in records
    ensures CacheStep(env, cat, m, records, files) == FromFetch(env, cat, m, env.fetch(m.url), records, files)
  {
  }

  lemma FlagRecord(env: Env, cat: Category, st: Loaded, records: map<string, JsonObject>, files: map<string, seq<byte>>)
    requires st.meta.WellFormed()
    requires var o := FromRecord(env, cat, st, records, files); o.meta.uploadedToPlex && o.result.Success?
    ensures var o := FromRecord(env, cat, st, records, files);
            st.meta.uploadedToPlex ||
            (env.upload(cat, o.meta.(uploadedToPlex := false), Image(None, Some(o.meta.path))).ok &&
             JsonPath(o.meta, env.root) in o.records && o.records[JsonPath(o.meta, env.root)] == ToJson(o.meta))
  {
    if !st.meta.uploadedToPlex {
      UploadCachedSaves(env, cat, st.meta, records, files, []);
    }
  }

  lemma FlagFetch(env: Env, cat: Category, m: Meta, response: Fetch, records: map<string, JsonObject>,
                  files: map<string, seq<byte>>)
    requires m.WellFormed() && !m.uploadedToPlex
    requires var o := FromFetch(env, cat, m, response, records, files); o.meta.uploadedToPlex && o.result.Success?
    ensures var o := FromFetch(env, cat, m, response, records, files);
            env.upload(cat, o.meta.(uploadedToPlex := false), Image(None, Some(o.meta.path))).ok &&
            JsonPath(o.meta, env.root) in o.records && o.records[JsonPath(o.meta, env.root)] == ToJson(o.meta)
  {
    var saved := SavedAsset(env, m, records, files, response.content);
    UploadCachedSaves(env, cat, saved.meta, saved.records, saved.files, [Download(m.url)]);
  }

  /** An `UploadCached` that ends with the flag set began without it, got
      True from the uploader and saved the record under the same path. */
  lemma UploadCachedSaves(env: Env, cat: Category, m: Meta, records: map<string, JsonObject>,
                          files: map<string, seq<byte>>, pre: seq<Event>)
    requires m.WellFormed() && !m.uploadedToPlex
    requires UploadCached(env, cat, m, records, files, pre).meta.uploadedToPlex
    ensures var o := UploadCached(env, cat, m, records, files, pre);
            env.upload(cat, m, Image(None, Some(m.path))).ok && o.meta == m.(uploadedToPlex := true) &&
            o.records == records[JsonPath(m, env.root) := ToJson(o.meta)] && o.files == files
  {
    PathIsIdentity(m, m.(uploadedToPlex := true), env.root);
  }

  /** A failed upload leaves the flag as the record had it and saves nothing. */
  lemma FailedUploadSavesNothing(env: Env, cat: Category, m: Meta, records: map<string, JsonObject>, files: map<string, seq<byte>>)
    requires m.WellFormed() && JsonPath(m, env.root) in records
    requires var st := ApplyRecord(m, records[JsonPath(m, env.root)]);
             st.error.None? && !st.meta.uploadedToPlex && !env.upload(cat, st.meta, Image(None, Some(st.meta.path))).ok
    ensures var o := CacheStep(env, cat, m, records, files);
            !o.meta.uploadedToPlex && o.records == records && o.files == files
  {
  }

  /** A second run after a first run that ended with the asset on Plex does
      nothing at all: it loads the record the first run saved (or found),
      sees the flag and stops. The asset starts as the scrapers make it, not
      yet uploaded, and a record it finds describes the same asset. */
  lemma SecondRunQuiet(env: Env, cat: Category, m: Meta, records: map<string, JsonObject>, files: map<string, seq<byte>>)
    requires m.WellFormed() && !m.uploadedToPlex
    requires var o := CacheStep(env, cat, m, records, files);
             o.result.Success? && o.meta.uploadedToPlex && SameIdentity(m, o.meta)
    ensures var o := CacheStep(env, cat, m, records, files);
            var again := CacheStep(env, cat, m, o.records, o.files);
            again.result == Success([]) && again.records == o.records && again.files == o.files
  {
    var o := CacheStep(env, cat, m, records, files);
    FlagFollowsUpload(env, cat, m, records, files);
    var p := JsonPath(m, env.root);
    if p in records && ApplyRecord(m, records[p]).meta.uploadedToPlex {
      StepFromRecord(env, cat, m, records, files);
    } else {
      QuietAfterSave(env, cat, m, o.meta, o.records, o.files);
    }
  }

  /** A saved record of an uploaded asset makes the next call on an asset
      with its identity quiet. */
  lemma QuietAfterSave(env: Env, cat: Category, m: Meta, done: Meta, records: map<string, JsonObject>,
                       files: map<string, seq<byte>>)
    requires m.WellFormed() && done.WellFormed() && done.uploadedToPlex && SameIdentity(m, done)
    requires JsonPath(done, env.root) in records && records[JsonPath(done, env.root)] == ToJson(done)
    ensures var again := CacheStep(env, cat, m, records, files);
            again.result == Success([]) && again.records == records && again.files == files
  {
    PathIsIdentity(m, done, env.root);
    RecordRoundTrip(m, done);
    StepFromRecord(env, cat, m, records, files);
  }

  // ---------------------------------------------------------------- set_posters

  /** The order `set_posters` works in: collections, then movies, then shows. */
  function Queue(sc: Scraped): seq<(Category, Meta)> {
    Tagged(CollectionArt, sc.collections) + Tagged(MovieArt, sc.movies) + Tagged(TvArt, sc.shows)
  }

  function Tagged(cat: Category, ms: seq<Meta>): (r: seq<(Category, Meta)>)
    ensures |r| == |ms| && forall k :: 0 <= k < |ms| ==> r[k] == (cat, ms[k])
  {
    if ms == [] then [] else Tagged(cat, ms[..|ms| - 1]) + [(cat, ms[|ms| - 1])]
  }

  /** Fresh posters make a queue `SetPosters` accepts, and each of them is
      fresh in it. */
  lemma FreshQueue(sc: Scraped)
    requires AllFresh(sc)
    ensures AllWellFormed(Queue(sc))
    ensures forall k :: 0 <= k < |Queue(sc)| ==> Fresh(Queue(sc)[k].1)
  {
    var a, b, c := Tagged(CollectionArt, sc.collections), Tagged(MovieArt, sc.movies), Tagged(TvArt, sc.shows);
    assert Queue(sc) == a + b + c;
    forall k | 0 <= k < |Queue(sc)|
      ensures Fresh(Queue(sc)[k].1)
    {
      if k < |a| {
        assert Queue(sc)[k] == a[k];
      } else if k < |a| + |b| {
        assert Queue(sc)[k] == b[k - |a|];
      } else {
        assert Queue(sc)[k] == c[k - |a| - |b|];
      }
    }
  }

  /** Without the cache every poster is uploaded straight from its url. */
  function DirectEvents(upload: Uploader, queue: seq<(Category, Meta)>): seq<Event> {
    if queue == [] then []
    else DirectEvents(upload, queue[..|queue| - 1]) + DirectOne(upload, queue[|queue| - 1])
  }

  /** The calls of one direct upload, from the poster's url. */
  function DirectOne(upload: Uploader, item: (Category, Meta)): seq<Event> {
    upload(item.0, item.1, Image(Some(item.1.url), None)).events
  }

  /** With the cache: the `cache_*` calls in turn, each on the cache the
      previous one left; an exception stops the run. */
  datatype Run = Run(records: map<string, JsonObject>, files: map<string, seq<byte>>, result: Result<seq<Event>>)

  predicate AllWellFormed(queue: seq<(Category, Meta)>) {
    forall k :: 0 <= k < |queue| ==> queue[k].1.WellFormed()
  }

  function CachedRun(env: Env, queue: seq<(Category, Meta)>, records: map<string, JsonObject>,
                     files: map<string, seq<byte>>): Run
    requires AllWellFormed(queue)
  {
    if queue == [] then Run(records, files, Success([]))
    else
      var prev := CachedRun(env, queue[..|queue| - 1], records, files);
      if prev.result.Failure? then prev
      else CachedOne(env, queue[|queue| - 1], prev)
  }

  /** One more `cache_*` call after a run that has not failed. */
  function CachedOne(env: Env, item: (Category, Meta), prev: Run): Run
    requires item.1.WellFormed() && prev.result.Success?
  {
    var o := CacheStep(env, item.0, item.1, prev.records, prev.files);
    Run(o.records, o.files, if o.result.Failure? then Failure(o.result.error) else Success(prev.result.value + o.result.value))
  }

  /** `set_posters` over a scraped set, with the cache switched on or off;
      each poster is its own object. */
  method SetPosters(env: Env, sc: Scraped, cacheEnabled: bool, cache: CacheStore) returns (r: Result<seq<Event>>)
    requires AllWellFormed(Queue(sc))
    modifies cache
    ensures !cacheEnabled ==> r == Success(DirectEvents(env.upload, Queue(sc))) && unchanged(cache)
    ensures cacheEnabled ==>
              var run := CachedRun(env, Queue(sc), old(cache.records), old(cache.files));
              r == run.result && cache.records == run.records && cache.files == run.files
  {
    var queue := Queue(sc);
    var events: seq<Event> := [];
    for i := 0 to |queue|
      invariant !cacheEnabled ==> events == DirectEvents(env.upload, queue[..i]) && unchanged(cache)
      invariant cacheEnabled ==>
                  var run := CachedRun(env, queue[..i], old(cache.records), old(cache.files));
                  run.result == Success(events) && cache.records == run.records && cache.files == run.files
    {
      var (cat, m) := queue[i];
      if cacheEnabled {
        var poster := new MediaMetadata(m);
        var step := CacheAsset(env, cat, cache, poster);
        CachedRunNext(env, queue, old(cache.records), old(cache.files), i);
        if step.Failure? {
          CachedRunStops(env, queue, old(cache.records), old(cache.files), i + 1);
          return Failure(step.error);
        }
        events := events + step.value;
      } else {
        var answer := env.upload(cat, m, Image(Some(m.url), None));
        DirectNext(env.upload, queue, i);
        events := events + answer.events;
      }
    }
    TakeAll(queue);
    return Success(events);
  }

  /** The cached run over one more poster. */
  lemma CachedRunNext(env: Env, queue: seq<(Category, Meta)>, records: map<string, JsonObject>,
                      files: map<string, seq<byte>>, i: nat)
    requires AllWellFormed(queue) && i < |queue|
    requires CachedRun(env, queue[..i], records, files).result.Success?
    ensures AllWellFormed(queue[..i]) && AllWellFormed(queue[..i + 1])
    ensures CachedRun(env, queue[..i + 1], records, files) == CachedOne(env, queue[i], CachedRun(env, queue[..i], records, files))
  {
    TakeSnoc(queue, i);
  }

  /** The direct run over one more poster. */
  lemma DirectNext(upload: Uploader, queue: seq<(Category, Meta)>, i: nat)
    requires i < |queue|
    ensures DirectEvents(upload, queue[..i + 1]) == DirectEvents(upload, queue[..i]) + DirectOne(upload, queue[i])
  {
    TakeSnoc(queue, i);
  }

  /** A run that failed stays failed, with the cache as the failure left it. */
  lemma {:induction false} CachedRunStops(env: Env, queue: seq<(Category, Meta)>, records: map<string, JsonObject>,
                                          files: map<string, seq<byte>>, i: nat)
    requires AllWellFormed(queue) && i <= |queue|
    requires CachedRun(env, queue[..i], records, files).result.Failure?
    ensures CachedRun(env, queue, records, files) == CachedRun(env, queue[..i], records, files)
    decreases |queue| - i
  {
    if i < |queue| {
      TakeSnoc(queue, i);
      CachedRunStops(env, queue, records, files, i + 1);
    } else {
      assert queue[..i] == queue;
    }
  }

  /** The direct run's calls come in `set_posters`' order: the collections'
      calls, then the movies', then the shows'. */
  lemma DirectOrder(upload: Uploader, sc: Scraped)
    ensures DirectEvents(upload, Queue(sc)) ==
            DirectEvents(upload, Tagged(CollectionArt, sc.collections)) +
            DirectEvents(upload, Tagged(MovieArt, sc.movies)) +
            DirectEvents(upload, Tagged(TvArt, sc.shows))
  {
    var a, b, c := Tagged(CollectionArt, sc.collections), Tagged(MovieArt, sc.movies), Tagged(TvArt, sc.shows);
    DirectConcat(upload, a, b);
    DirectConcat(upload, a + b, c);
  }

  lemma {:induction false} DirectConcat(upload: Uploader, a: seq<(Category, Meta)>, b: seq<(Category, Meta)>)
    ensures DirectEvents(upload, a + b) == DirectEvents(upload, a) + DirectEvents(upload, b)
  {
    if b == [] {
      assert a + b == a;
    } else {
      var init := b[..|b| - 1];
      DirectConcat(upload, a, init);
      assert (a + b)[..|a + b| - 1] == a + init;
      assert (a + b)[|a + b| - 1] == b[|b| - 1];
    }
  }

  /** Without the cache the library's uploaders never download anything. */
  lemma {:induction false} DirectNeverDownloads(tv: seq<Section>, movies: seq<Section>, plex: Plex,
                                                queue: seq<(Category, Meta)>, url: string)
    ensures Download(url) !in DirectEvents(LibraryUploader(tv, movies, plex), queue)
  {
    if queue != [] {
      DirectNeverDownloads(tv, movies, plex, queue[..|queue| - 1], url);
      var item := queue[|queue| - 1];
      NoDownloadInUploads(tv, movies, plex, item.0, item.1, Image(Some(item.1.url), None), url);
    }
  }
}
