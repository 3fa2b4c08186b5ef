/** The `MediaMetadata` object, whose methods update its fields in place, and
    the cache directory its files go to (plex_poster_set_helper.py:31-158). */
module Asset {
  import opened Wrappers
  import opened Seqs
  import opened Media

  newtype byte = x: int | 0 <= x < 256

  /** `data[:n]`. */
  function Head(data: seq<byte>, n: nat): (r: seq<byte>)
    ensures |r| <= n && |r| <= |data| && r == data[..|r|]
  {
    if |data| <= n then data else data[..n]
  }

  /** The files under the cache location: JSON records (as the objects
      `json.load` returns) and image files, each by path. */
  class CacheStore {
    var records: map<string, JsonObject>
    var files: map<string, seq<byte>>

    constructor (records0: map<string, JsonObject>, files0: map<string, seq<byte>>)
      ensures records == records0 && files == files0
    {
      records := records0;
      files := files0;
    }
  }

  /** One poster asset, with the dataclass's thirteen fields. */
  class MediaMetadata {
    var url: string
    var source: string
    var title: string
    var year: Option<int>
    var season: Option<int>
    var episode: Option<int>
    var showBackdrop: bool
    var showCoverArt: bool
    var seasonCoverArt: bool
    var uploadedToPlex: bool
    var uploadedDatetime: Option<DateTime>
    var path: string
    var metadataPath: string

    /** The fields as a value. */
    function Snapshot(): Meta
      reads this
    {
      Meta(url, source, title, year, season, episode, showBackdrop, showCoverArt, seasonCoverArt,
           uploadedToPlex, uploadedDatetime, path, metadataPath)
    }

    predicate WellFormed()
      reads this
    {
      Snapshot().WellFormed()
    }

    /** `MediaMetadata(**fields)`. */
    constructor (m: Meta)
      requires m.WellFormed()
      ensures Snapshot() == m
    {
      url, source, title := m.url, m.source, m.title;
      year, season, episode := m.year, m.season, m.episode;
      showBackdrop, showCoverArt, seasonCoverArt := m.showBackdrop, m.showCoverArt, m.seasonCoverArt;
      uploadedToPlex, uploadedDatetime := m.uploadedToPlex, m.uploadedDatetime;
      path, metadataPath := m.path, m.metadataPath;
    }

    /** Overwrites every field with those of `m`. */
    method Assign(m: Meta)
      modifies this
      ensures Snapshot() == m
    {
      url, source, title := m.url, m.source, m.title;
      year, season, episode := m.year, m.season, m.episode;
      showBackdrop, showCoverArt, seasonCoverArt := m.showBackdrop, m.showCoverArt, m.seasonCoverArt;
      uploadedToPlex, uploadedDatetime := m.uploadedToPlex, m.uploadedDatetime;
      path, metadataPath := m.path, m.metadataPath;
    }

    /** `load_from_cache`: when `<path>.json` exists, each of its pairs is
        written into the object in turn (a bad ISO datetime raises and
        stops the loop, keeping the pairs before it) and the answer is
        True; otherwise nothing changes and the answer is False. */
    method LoadFromCache(cache: CacheStore, root: string) returns (r: Result<bool>)
      requires WellFormed()
      modifies this
      ensures WellFormed()
      ensures JsonPath(old(Snapshot()), root) !in cache.records ==>
                r == Success(false) && Snapshot() == old(Snapshot())
      ensures JsonPath(old(Snapshot()), root) in cache.records ==>
                var st := ApplyRecord(old(Snapshot()), cache.records[JsonPath(old(Snapshot()), root)]);
                Snapshot() == st.meta &&
                r == (if st.error.None? then Success(true) else Failure(st.error.value))
    {
      var p := JsonPath(Snapshot(), root);
      if p !in cache.records {
        return Success(false);
      }
      var data := cache.records[p];
      ghost var start := Snapshot();
      var i := 0;
      while i < |data|
        invariant 0 <= i <= |data|
        invariant WellFormed()
        invariant ApplyRecord(start, data[..i]) == Loaded(Snapshot(), None)
      {
        var st := SetAttr(Snapshot(), data[i].0, data[i].1);
        TakeSnoc(data, i);
        if st.error.Some? {
          ApplyConcat(start, data[..i + 1], data[i + 1..]);
          TakeDrop(data, i + 1);
          return Failure(st.error.value);
        }
        Assign(st.meta);
        i := i + 1;
      }
      TakeAll(data);
      return Success(true);
    }

    /** `save_to_cache`: writes the object's record to `<path>.json`. */
    method SaveToCache(cache: CacheStore, root: string)
      requires WellFormed()
      modifies cache
      ensures cache.records == old(cache.records)[JsonPath(Snapshot(), root) := ToJson(Snapshot())]
      ensures cache.files == old(cache.files)
    {
      cache.records := cache.records[JsonPath(Snapshot(), root) := ToJson(Snapshot())];
    }

    /** `save_asset`: the downloaded bytes go to `<path>.<ext>`, where `ext`
        is the first extension `detect` (the file-type sniffer) finds in the
        first 128 bytes; the object records both file paths and is saved to
        its JSON record. When no type is recognised the IndexError is caught
        and nothing at all changes. */
    method SaveAsset(cache: CacheStore, root: string, data: seq<byte>, detect: seq<byte> -> seq<string>)
      requires WellFormed()
      modifies this, cache
      ensures WellFormed()
      ensures |detect(Head(data, 128))| == 0 ==>
                Snapshot() == old(Snapshot()) && cache.records == old(cache.records) &&
                cache.files == old(cache.files)
      ensures |detect(Head(data, 128))| > 0 ==>
                var base := BuildAssetPath(old(Snapshot()), root);
                var image := base + "." + detect(Head(data, 128))[0];
                Snapshot() == old(Snapshot()).(path := image, metadataPath := base + ".json") &&
                cache.files == old(cache.files)[image := data] &&
                cache.records == old(cache.records)[base + ".json" := ToJson(Snapshot())]
    {
      var base := BuildAssetPath(Snapshot(), root);
      var extensions := detect(Head(data, 128));
      if |extensions| == 0 {
        return;
      }
      var image := base + "." + extensions[0];
      cache.files := cache.files[image := data];
      path := image;
      metadataPath := base + ".json";
      PathIsIdentity(old(Snapshot()), Snapshot(), root);
      SaveToCache(cache, root);
    }
  }

  /** What `save_to_cache` wrote is what a later `load_from_cache` of any
      asset with the same identity finds and restores: the same JSON path,
      and every field of the saved asset. */
  lemma SavedRecordRestores(saved: Meta, later: Meta, root: string, records: map<string, JsonObject>)
    requires saved.WellFormed() && later.WellFormed() && SameIdentity(saved, later)
    requires JsonPath(saved, root) in records && records[JsonPath(saved, root)] == ToJson(saved)
    ensures JsonPath(later, root) in records
    ensures ApplyRecord(later, records[JsonPath(later, root)]) == Loaded(saved, None)
  {
    PathIsIdentity(saved, later, root);
    RecordRoundTrip(later, saved);
  }
}
