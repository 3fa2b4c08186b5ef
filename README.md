# Plex poster set helper, modelled in Dafny

The helper scrapes poster sets from ThePosterDB and MediUX and uploads them to a
Plex server. This project models three scripts:

- **plex_poster_set_helper.py**, the current script:
  - the `MediaMetadata` record and its cache path.
  - the JSON cache record, with its save/load round trip.
  - the cache-then-upload sequence of `cache_collection`, `cache_movie` and `cache_tv`.
  - the grid-caption parser for ThePosterDB and the MediUX file-entry classifier, with its carried loop variables.
  - the library lookups and upload dispatch against a Plex server held as values.
  - the URL layer: `is_not_comment`, `parse_urls`, `scrape` and the user page URLs.
- **plex-poster-set-helper.py**, the older script:
  - sentinel-valued ("Cover", "Backdrop") grid and MediUX parsers, including the `S(\d+) E(\d+)` search.
  - upload-target selection.
  - its `set_posters`.
- **plex-posterdb-helper.py**, the first script: ThePosterDB only, with raw season text.

Modules, one file each:

| file | module | contents |
|---|---|---|
| seqs.dfy | `Seqs` | generic sequence facts: slices of slices, appending one element, associativity |
| wrappers.dfy | `Wrappers` | `Option`, `Result`, and the Python exceptions that can escape |
| pystr.dfy | `PyStr` | Python `str` semantics the parsers rely on: `in`, `find`, `rfind`, `split`, `rsplit(sep, 1)`, `replace`, `strip`, slicing, `int()`, `f"{n}"` |
| media.dfy | `Media` | the record as a value: kind predicates, `build_asset_path`, ISO datetime, the JSON record and the `setattr` loop |
| asset.dfy | `Asset` | class `MediaMetadata` (fields updated in place) and class `CacheStore` (the files on disk) |
| library.dfy | `Library` | Plex sections, `find_in_library`, `find_collection`, the three uploaders, `check_libraries` |
| posterdb.dfy | `PosterDb` | grid cards, `scrape_posterdb`, the user page count |
| mediux.dfy | `Mediux` | `title_cleaner`, the string part of `parse_string_to_dict`, `check_mediux_filter`, `scrape_mediux` |
| sync.dfy | `Sync` | `cache_*` and `set_posters` |
| batch.dfy | `Batch` | `is_not_comment`, `parse_urls`, `scrape`, `scrape_entire_user` |
| legacy_set_helper.dfy | `LegacySetHelper` | plex-poster-set-helper.py |
| legacy_posterdb_helper.dfy | `LegacyPosterDbHelper` | plex-posterdb-helper.py |

Outside effects are parameters:

| effect | modelled as |
|---|---|
| HTTP fetch | oracle function |
| HTML page | record of the parts the scrapers read |
| `json.loads` / `unicode_escape` decoding | oracle functions |
| `fleep` file-type sniffer | oracle function |
| Plex server | values, with the calls that would raise as a set in `Plex` |

Upload calls, the 6-second pauses and downloads are recorded as `Event`s in order. `sys.exit` is the `SystemExit` error. An exception that escapes a function is a `Failure` carrying the Python exception.

## Model

| member | source | states |
|---|---|---|
| Media.KindsExclusive | plex_poster_set_helper.py:49-57 | at most one of is_show, is_movie, is_collection holds; an asset is none of them exactly when it is not a show and its year is 0 |
| Media.Pad | plex_poster_set_helper.py:104 | the zero-padded number field of `isoformat` has exactly the width asked for and only digits |
| Media.PadValue | plex_poster_set_helper.py:104 | a padded field reads back as the number it was made from |
| Media.IsoFormat | plex_poster_set_helper.py:104 | `isoformat()` of a whole-second datetime is 19 characters long |
| Media.FromIsoFormat | plex_poster_set_helper.py:90-91 | `fromisoformat` only ever yields a valid date and time |
| Media.IsoRoundTrip | plex_poster_set_helper.py:90-104 | `fromisoformat(d.isoformat()) == d` for every valid datetime |
| Media.Sanitize | plex_poster_set_helper.py:62 | `sanitize_filename` leaves no unsafe character and never lengthens the title |
| Media.PathIsIdentity | plex_poster_set_helper.py:59-80 | the cache path depends only on the title, year, season, episode and the three flags, not on url, source, upload state or paths |
| Media.CollectionPath | plex_poster_set_helper.py:61-62 | a collection is cached at `<root>/collections/<title>/poster` |
| Media.MoviePath | plex_poster_set_helper.py:63-64 | a movie is cached at `<root>/movies/<title> (<year>)/poster` |
| Media.ShowDirectoryPlain | plex_poster_set_helper.py:65-67 | the show directory is `<root>/tv_shows/<title> (<year>)` |
| Media.ShowArtPath | plex_poster_set_helper.py:65-79 | a show asset of one kind is cached under the show directory at `/cover`, `/backdrop`, `/specials/poster`, `/s{N}/cover` or `/s{N}/s{N}e{M}` as its kind says |
| Media.SeasonCoversDistinct | plex_poster_set_helper.py:74-76 | season covers of one show that differ in season number get different paths |
| Media.BareSeasonCollapses | plex_poster_set_helper.py:74-79 | a season-1-or-later asset that is neither a season cover nor an episode is cached at the bare show directory |
| Media.UnclassifiedPath | plex_poster_set_helper.py:59-80 | an asset of no kind gets the empty path and the metadata path `.json` |
| Media.ToJson | plex_poster_set_helper.py:102-106 | the saved record has one entry per dataclass field (declared at lines 33-47), under the field's Python name, in declaration order; the datetime entry is null exactly when no upload time is set |
| Media.SetAttr | plex_poster_set_helper.py:88-92 | one `setattr` of the loading loop keeps the record well formed, and an exception leaves the record unchanged |
| Media.ApplyRecord | plex_poster_set_helper.py:88-92 | the loading loop keeps the record well formed |
| Media.ApplyConcat | plex_poster_set_helper.py:88-92 | the loop over two runs of pairs is the loop over the first, then, unless that raised, over the second |
| Media.SetAttrText | plex_poster_set_helper.py:92 | a string value under the name of a text field sets exactly that field |
| Media.SetAttrNumber | plex_poster_set_helper.py:92 | an int-or-null value under `year`, `season` or `episode` sets exactly that field |
| Media.SetAttrFlag | plex_poster_set_helper.py:92 | a boolean value under a flag's name sets exactly that flag |
| Media.SetAttrDatetime | plex_poster_set_helper.py:90-92 | `uploaded_datetime` is read back through `fromisoformat`; null stays None |
| Media.RecordRoundTrip | plex_poster_set_helper.py:82-106 | loading the record `save_to_cache` wrote restores every field of the saved asset, from any starting asset |
| Asset.Head | plex_poster_set_helper.py:146 | `data[:128]` is a prefix of the data of at most 128 bytes |
| Asset.CacheStore.constructor | plex_poster_set_helper.py:85-87 | the cache starts with the given records and files |
| Asset.MediaMetadata.constructor | plex_poster_set_helper.py:31-47 | the object holds exactly the given fields |
| Asset.MediaMetadata.Assign | plex_poster_set_helper.py:31-47 | every field is overwritten by the given record |
| Asset.MediaMetadata.LoadFromCache | plex_poster_set_helper.py:82-96 | without `<path>.json` it returns False and changes nothing; with one, the fields become those of the `setattr` loop over the record, and it returns True or the loop's exception |
| Asset.MediaMetadata.SaveToCache | plex_poster_set_helper.py:98-106 | the record of the current fields is written to `<path>.json`; nothing else changes |
| Asset.MediaMetadata.SaveAsset | plex_poster_set_helper.py:108-158 | with an extension from the sniffer, the image goes to `<path>.<ext>`, `path` and `metadata_path` are set and the record saved; without one, the IndexError is caught and nothing changes |
| Asset.SavedRecordRestores | plex_poster_set_helper.py:82-106 | after saving, a later load of an asset with the same identity finds the record and restores the saved asset |
| Library.MatchesConcat | plex_poster_set_helper.py:336-357 | the matches of two runs of sections are those of the first followed by those of the second, so a section without a match does not stop the others |
| Library.MatchesComplete | plex_poster_set_helper.py:336-357 | at most one match per section, and an item is a match exactly when some section's lookup yields it |
| Library.FindInLibrary | plex_poster_set_helper.py:334-363 | `find_in_library` returns the matches of all sections in order, or None (not an empty list) when there are none |
| Library.ColonFallbackAsksForWords | plex_poster_set_helper.py:344-345 | for "Star Wars: Andor" the fallback looks up the word list, not "Andor" |
| Library.StarWarsWords | plex_poster_set_helper.py:345 | `"Star Wars: Andor".split(" ")` is `["Star", "Wars:", "Andor"]` |
| Library.CollectionMatchesExact | plex_poster_set_helper.py:366-375 | a collection is gathered exactly when some readable section holds it under exactly the poster's title |
| Library.TitledExact | plex_poster_set_helper.py:371-373 | within one section, the gathered collections are those with exactly the poster's title (case-sensitive) |
| Library.FindCollection | plex_poster_set_helper.py:366-381 | `find_collection` returns the exact-title collections of all sections in order, or None |
| Library.ShowArtTargets | plex_poster_set_helper.py:428-450 | a show cover or backdrop goes to the show, season 0 to the season "Specials", a season cover to season N, an episode to season N's episode M |
| Library.UploadTvPoster | plex_poster_set_helper.py:422-470 | one call per found show that resolves, with `uploadArt` for backdrops; it returns True exactly when a show was found and no attempted upload raised |
| Library.UploadMoviePoster | plex_poster_set_helper.py:472-488 | only the first matched movie is attempted, because the `return` sits inside the loop; True exactly when that upload did not raise |
| Library.UploadCollectionPoster | plex_poster_set_helper.py:491-507 | every matched collection gets one upload; True exactly when there was a match and none raised |
| Library.CheckLibraries | plex_poster_set_helper.py:1674-1679 | true exactly when both library lists are non-empty, which is exactly when no warning is printed; each list's warning is printed exactly when that list is empty, the TV one first |
| PosterDb.CollectionCard | plex_poster_set_helper.py:711-715 | a collection card keeps the caption verbatim as its title, with no year |
| PosterDb.ScrapeFailurePersists | plex_poster_set_helper.py:661-715 | an exception on one card is the exception of the whole grid |
| PosterDb.ScrapeCardsFresh | plex_poster_set_helper.py:661-717 | every scraped poster starts not uploaded, without a cached path |
| PosterDb.ScrapePosterdb | plex_poster_set_helper.py:649-717 | the loop sorts the cards into movies, shows and collections in page order, and a page without the grid raises the `find_all`-on-None AttributeError |
| PosterDb.CardsSortedByKind | plex_poster_set_helper.py:661-713 | a grid that scrapes gives one show per "Show" card, one movie per "Movie" card and one collection per "Collection" card; other labels give nothing |
| PosterDb.MoviePlainCaption | plex_poster_set_helper.py:697-709 | "T (YYYY)" with T free of " (" gives title T and year YYYY |
| PosterDb.MovieFoldedCaption | plex_poster_set_helper.py:698-702 | in "T (X (YYYY)" a second chunk X whose length is not 5 is folded back: the title is "T (X" |
| PosterDb.FiveHundredDays | plex_poster_set_helper.py:697-709 | "(500) Days of Summer (2009)" gives title "(500) Days of Summer" and year 2009 |
| PosterDb.ShowCanonicalCaption | plex_poster_set_helper.py:671-695 | a canonical show caption "T (YYYY)" plus an optional " - Specials" or " - Season N" gives title T, year YYYY, and show cover, season 0 or season N |
| PosterDb.SpecialsSegment | plex_poster_set_helper.py:682-683 | the last segment "Specials" names season 0 |
| PosterDb.SeasonSegment | plex_poster_set_helper.py:684-685 | the last segment "Season N" names season N |
| PosterDb.CeilDivIsCeiling | plex_poster_set_helper.py:644 | the integer ceiling division is the least multiple bound: `d*(q-1) < n <= d*q` |
| PosterDb.UserPages | plex_poster_set_helper.py:638-647 | `scrape_posterd_user_info` gives a page count p with `24*(p-1) < count <= 24*p` exactly when the data-count attribute is there and parses as an int, and None otherwise |
| Mediux.TitleCleanerClean | plex_poster_set_helper.py:305-315 | the cleaned title is stripped and holds no " ("; when the text has no " (", the title holds no " -" either |
| Mediux.TitleCleanerParen | plex_poster_set_helper.py:306-307 | "T (anything" with T free of " (" cleans to T stripped |
| Mediux.RepairRemovesBackslashes | plex_poster_set_helper.py:320-322 | no backslash survives the escape repair |
| Mediux.JsonTextBraced | plex_poster_set_helper.py:325-327 | when a '{' precedes some '}', the JSON text runs from the first '{' to the last '}' of the repaired script |
| Mediux.MediaTypeOf | plex_poster_set_helper.py:746-750 | the media type is unset exactly when the set has no files |
| Mediux.LastEntryDecides | plex_poster_set_helper.py:746-750 | each entry overwrites the media type, so the last entry decides it |
| Mediux.FirstSeason | plex_poster_set_helper.py:779-783 | the season number comes from the first season with the entry's id; none exists exactly when no season has that id (the `[0]` raises) |
| Mediux.FirstMovie | plex_poster_set_helper.py:798-800 | the collection movie is the first with the entry's id; none exists exactly when no movie has it |
| Mediux.ScrapeMediux | plex_poster_set_helper.py:727-839 | the script loop, the media-type loop and the entry loop with carried `season`, `episode`, `file_type`, `title` and `year` compute the posters of `MediuxSpec` |
| Mediux.SelectFailurePersists | plex_poster_set_helper.py:739-744 | an exception while decoding a selected script ends the scrape |
| Mediux.EntriesFailurePersists | plex_poster_set_helper.py:752-837 | an exception on one entry ends the scrape |
| Mediux.KindSeparates | plex_poster_set_helper.py:809-837 | a show set gives only show posters and a movie set none |
| Mediux.ShowPosterCount | plex_poster_set_helper.py:820-823 | without a filter list every show entry gives one poster; with one, never more posters than entries |
| Mediux.ShowFlagsExclusive | plex_poster_set_helper.py:753-818 | every show poster carries at most one of the three art flags and the URL of one of the set's entries |
| Mediux.FilterKeepsShowPoster | plex_poster_set_helper.py:820-823 | a show entry adds its poster exactly when the filter passes the `file_type` it leaves, and otherwise changes nothing |
| Mediux.UnmatchedEntryCarries | plex_poster_set_helper.py:763-789 | an entry matching no branch keeps the carried variables; as the first entry of a set it meets `season` unassigned (NameError) |
| Mediux.TitleCardEntry | plex_poster_set_helper.py:763-771 | a title card takes the season from the episode reference and the episode from the text after the last " E" of its title |
| Mediux.TitleCardKeepsEpisode | plex_poster_set_helper.py:767-770 | when that text does not parse, the episode keeps the value of an earlier entry |
| Mediux.SeasonCoverEntry | plex_poster_set_helper.py:778-784 | a season cover takes the first matching season's number, and raises IndexError when none matches |
| Mediux.MediuxFresh | plex_poster_set_helper.py:727-839 | every scraped poster starts not uploaded |
| Sync.Upload | plex_poster_set_helper.py:513-530 | the upload for a poster's category answers as the library model's uploaders say |
| Sync.NoDownloadInUploads | plex_poster_set_helper.py:422-507 | the library's uploaders never download |
| Sync.UploadCached | plex_poster_set_helper.py:540-545 | an upload from the cached file that returned True sets the flag and saves the record again |
| Sync.SavedAsset | plex_poster_set_helper.py:108-158 | `save_asset` on values keeps the record well formed |
| Sync.CacheStep | plex_poster_set_helper.py:533-620 | one `cache_*` call keeps the record well formed |
| Sync.CacheAsset | plex_poster_set_helper.py:533-620 | `cache_*` on the poster object and the cache does what `CacheStep` says: the same fields, records, files and result |
| Sync.UploadFromFile | plex_poster_set_helper.py:541-545 | the object method is `UploadCached`: the flag and re-save only after True |
| Sync.UploadedIsQuiet | plex_poster_set_helper.py:535-539 | a record with `uploaded_to_plex` true means no download, no upload and no change to the cache |
| Sync.CachedRetriesUploadOnly | plex_poster_set_helper.py:540-545 | a record with the flag false means only the upload from the cached path is retried, and the files stay as they were |
| Sync.FlagFollowsUpload | plex_poster_set_helper.py:533-620 | the flag ends up set only if the record already had it, or the uploader answered True and the saved record has the flag |
| Sync.UploadCachedSaves | plex_poster_set_helper.py:541-543 | a flag set by an upload means the uploader said True, the record was re-saved under the same path, and no file changed |
| Sync.FailedUploadSavesNothing | plex_poster_set_helper.py:541-545 | a failed upload leaves the flag unset and the cache unchanged |
| Sync.SecondRunQuiet | plex_poster_set_helper.py:533-620 | after a run that ended with the asset on Plex, a second run makes no download, no upload and no change |
| Sync.QuietAfterSave | plex_poster_set_helper.py:535-539 | a saved record of an uploaded asset makes the next call on an asset with the same identity quiet |
| Sync.Tagged | plex_poster_set_helper.py:513-530 | tagging keeps the posters and their order, each with its category |
| Sync.FreshQueue | plex_poster_set_helper.py:510-530 | fresh scraped posters make a well-formed queue of fresh posters |
| Sync.SetPosters | plex_poster_set_helper.py:510-530 | without the cache, the direct uploads in queue order with the cache untouched; with it, the `cache_*` calls in turn, each on the cache the previous one left |
| Sync.CachedRunStops | plex_poster_set_helper.py:510-530 | an exception stops `set_posters`, leaving the cache as the failing call left it |
| Sync.DirectOrder | plex_poster_set_helper.py:510-530 | collections are uploaded first, then movies, then shows |
| Sync.DirectConcat | plex_poster_set_helper.py:513-530 | the uploads of two runs of posters are those of the first, then those of the second |
| Sync.DirectNeverDownloads | plex_poster_set_helper.py:513-530 | without the cache nothing is downloaded |
| Batch.KeptIsNotComment | plex_poster_set_helper.py:887-899 | on a stripped line the filter of `parse_urls` agrees with `is_not_comment` |
| Batch.ValidUrls | plex_poster_set_helper.py:896-900 | every kept URL is stripped, not a comment and not empty, and there are no more URLs than lines |
| Batch.ValidUrlsMembers | plex_poster_set_helper.py:896-900 | a URL is kept exactly when it passes the filter and is the stripped text of some line |
| Batch.ValidUrlsConcat | plex_poster_set_helper.py:897-900 | the filter works line by line: filtering two lists is filtering each |
| Batch.ValidUrlsIdempotent | plex_poster_set_helper.py:897-900 | a property of the filter rather than a promise of the source: filtering the kept URLs again keeps them all |
| Batch.UserRun | plex_poster_set_helper.py:902-909 | the scraped user URLs are the longest head of the list holding "/user/"; the URL after them, if any, does not hold it |
| Batch.Route | plex_poster_set_helper.py:842-865 | `scrape` exits exactly when the URL matches no branch; theposterdb URLs without "/set/", "/user/" or "/poster/" return None |
| Batch.PosterDbFirst | plex_poster_set_helper.py:843-856 | a theposterdb URL never reaches the MediUX or the local-file branch |
| Batch.Scrape | plex_poster_set_helper.py:842-865 | `scrape` returns or raises what `ScrapeSpec` says, and a poster page goes through its set link |
| Batch.ScrapedFresh | plex_poster_set_helper.py:842-865 | whatever `scrape` returns is fresh |
| Batch.SetPostersAt | plex_poster_set_helper.py:510-530 | `set_posters(url)` is the scrape followed by the posters in order, on the cache it starts with |
| Batch.PagesRunConcat | plex_poster_set_helper.py:881-884 | running two lists of page URLs is running their concatenation |
| Batch.PagesRunStops | plex_poster_set_helper.py:881-884 | a failed page stops the run |
| Batch.UserBase | plex_poster_set_helper.py:877-879 | the user URL loses its query: it holds no "?", and is unchanged when it had none |
| Batch.PageUrls | plex_poster_set_helper.py:881-883 | page k is `<url>?section=uploads&page=k`, for k from 1 to the page count, and none for a count that is not positive |
| Batch.PageNumberParses | plex_poster_set_helper.py:883 | the text after the query prefix of page k parses back as k |
| Batch.PageUrlsDistinct | plex_poster_set_helper.py:881-883 | different pages get different URLs |
| Batch.ScrapeEntireUser | plex_poster_set_helper.py:868-884 | `scrape_entire_user` runs `set_posters` on every page URL in turn, or on none when the page count is missing or 0 |
| Batch.SetPages | plex_poster_set_helper.py:881-884 | the page loop runs `set_posters` on pages 1 to the count in turn, each on the cache the previous call left, and stops at the first exception |
| Batch.ParseUrls | plex_poster_set_helper.py:894-911 | `parse_urls` returns the kept URLs, after running every user URL at the head of the list and stopping at the first other one |
| Batch.SetUsers | plex_poster_set_helper.py:902-909 | the second loop runs the users' page URLs one user after the other |
| Batch.UsersStop | plex_poster_set_helper.py:902-905 | a failed user stops `parse_urls` |
| Batch.KeptUrls | plex_poster_set_helper.py:896-900 | the first loop collects exactly `ValidUrls` |
| LegacySetHelper.Piece | plex-poster-set-helper.py:250 | a subscript succeeds exactly when it is in range, and otherwise raises IndexError |
| LegacySetHelper.CookSoup | plex-poster-set-helper.py:40-51 | `cook_soup` gives the page for status 200 and otherwise exits with the status in the message |
| LegacySetHelper.ScrapePosterdb | plex-poster-set-helper.py:154-217 | the grid loop sorts cards into the three lists as `PosterdbSpec` says |
| LegacySetHelper.CardsSortedByKind | plex-poster-set-helper.py:166-213 | a grid that scrapes gives one show per "Show" card, one movie per "Movie" card and one collection per "Collection" card; other labels give nothing |
| LegacySetHelper.CardsFailurePersists | plex-poster-set-helper.py:166-215 | an exception on one card is the exception of the whole grid |
| LegacySetHelper.MovieCardAgrees | plex-poster-set-helper.py:195-208 | the movie rule is the current script's: the same title and year, or the same failure |
| LegacySetHelper.SegmentSeasonAgrees | plex-poster-set-helper.py:179-183 | on "Specials" or a "Season" segment, the season number is the current script's |
| LegacySetHelper.ShowCanonicalCaption | plex-poster-set-helper.py:176-193 | a canonical show caption gives title T, no episode, and season "Cover", 0 or N |
| LegacySetHelper.CollectionVerbatim | plex-poster-set-helper.py:210-215 | a collection card keeps the caption verbatim as its title |
| LegacySetHelper.DigitRun | plex-poster-set-helper.py:251 | the digit run from an index is all digits and is followed by a non-digit or the end |
| LegacySetHelper.DigitRunExact | plex-poster-set-helper.py:251 | a run of n digits followed by a non-digit has length n |
| LegacySetHelper.EpisodeFound | plex-poster-set-helper.py:249-255 | "S<a> E<b>" after text without 'S' is found, with season a and episode b |
| LegacySetHelper.NoEpisodeFound | plex-poster-set-helper.py:251-253 | a text with no 'S' followed by a digit has no match |
| LegacySetHelper.SkipNoS | plex-poster-set-helper.py:252 | the search passes over indices that do not hold 'S' |
| LegacySetHelper.Selected | plex-poster-set-helper.py:232-236 | the poster-data scripts are kept in page order |
| LegacySetHelper.SelectedMembers | plex-poster-set-helper.py:232-236 | a script is kept exactly when it holds "filename_disk" and "title" but no `Set Link\` |
| LegacySetHelper.MediaType | plex-poster-set-helper.py:238-243 | the loop with `break` gives "Show" exactly when some poster data holds "Season", "Movie" otherwise, and None for no data |
| LegacySetHelper.ScrapeMediux | plex-poster-set-helper.py:220-315 | the three loops, with carried `season`, `episode`, `title` and `year`, compute `MediuxSpec` |
| LegacySetHelper.EntriesFailurePersists | plex-poster-set-helper.py:245-313 | an exception on one entry ends the scrape |
| LegacySetHelper.KindSeparates | plex-poster-set-helper.py:290-313 | a show set gives only show posters, a movie set none |
| LegacySetHelper.CollectionsByTitle | plex-poster-set-helper.py:299-313 | in a movie set, titles with "Collection" become collection posters and all others movies |
| LegacySetHelper.EpisodeIdent | plex-poster-set-helper.py:251-255 | the identifier "S<a> E<b>" names episode b of season a |
| LegacySetHelper.SeasonIdent | plex-poster-set-helper.py:256-258 | the identifier "Season N" names season N with episode "Cover" |
| LegacySetHelper.BackdropIdent | plex-poster-set-helper.py:259-261 | the identifier "Backdrop" names the show's backdrop, with no episode |
| LegacySetHelper.CoverIdent | plex-poster-set-helper.py:262-264 | metadata without " - " is the show's cover, with no episode |
| LegacySetHelper.IdentOfSegment | plex-poster-set-helper.py:249-250 | the identifier is the second " - " segment |
| LegacySetHelper.SegmentCarries | plex-poster-set-helper.py:249-261 | an identifier naming no episode, season or backdrop keeps the previous entry's season and episode |
| LegacySetHelper.ShowTitleParen | plex-poster-set-helper.py:266-267 | the title of "T (rest" is T stripped |
| LegacySetHelper.MovieTitleFold | plex-poster-set-helper.py:274-280 | a second " (" chunk at least 8 long is folded into the title; a shorter one is not |
| LegacySetHelper.TvTargets | plex-poster-set-helper.py:83-108 | "Cover" goes to the show, 0 to the season "Specials", "Backdrop" to the show via `uploadArt`, N with episode "Cover" or None to season N, an episode number to that episode, a negative season nowhere |
| LegacySetHelper.PauseOnlyForPosterdb | plex-poster-set-helper.py:109-110 | the 6-second pause follows exactly the ThePosterDB uploads that did not raise |
| LegacySetHelper.FirstTitled | plex-poster-set-helper.py:131-137 | the found index is the first collection with exactly the poster's title, and there is none exactly when no title matches |
| LegacySetHelper.UploadCollectionPoster | plex-poster-set-helper.py:125-139 | the found/break loop uploads to the first exact-title collection only; an unreadable collection list raises NameError, and a refused upload escapes |
| LegacySetHelper.Route | plex-poster-set-helper.py:318-326 | ThePosterDB is chosen for "theposterdb.com" with "set" or "user", MediUX for "mediux.pro" with "sets", and any other URL exits |
| LegacySetHelper.Scrape | plex-poster-set-helper.py:318-326 | `scrape` returns or raises what `ScrapeSpec` says |
| LegacySetHelper.SetPosters | plex-poster-set-helper.py:141-151 | collections first, up to the first that raises, then movies, then shows |
| LegacySetHelper.SetCollections | plex-poster-set-helper.py:144-145 | the collection loop stops at the first exception |
| LegacySetHelper.SetMovies | plex-poster-set-helper.py:147-148 | the movie uploads in order |
| LegacySetHelper.SetShows | plex-poster-set-helper.py:150-151 | the show uploads in order |
| LegacySetHelper.CollectionsStop | plex-poster-set-helper.py:144-145 | a collection upload that raises ends the run of collections |
| LegacySetHelper.ArtOnlyForBackdrops | plex-poster-set-helper.py:105-108 | every art upload comes from a backdrop poster |
| LegacySetHelper.MoviesUsePosters | plex-poster-set-helper.py:116-123 | movies get no art upload |
| LegacyPosterDbHelper.ScrapeSpec | plex-posterdb-helper.py:56-59 | a URL without both "theposterdb.com" and "set" exits with "Poster set not found" |
| LegacyPosterDbHelper.ScrapePosters | plex-posterdb-helper.py:51-111 | the guard, the page and the card loop give what `ScrapeSpec` says, in page order |
| LegacyPosterDbHelper.CardsSortedByKind | plex-posterdb-helper.py:68-109 | a grid that scrapes gives one show per "Show" card, one movie per "Movie" card and one collection per "Collection" card; other labels give nothing |
| LegacyPosterDbHelper.CardsFailurePersists | plex-posterdb-helper.py:68-109 | an exception on one card is the exception of the whole grid |
| LegacyPosterDbHelper.ShowCanonicalCaption | plex-posterdb-helper.py:78-89 | a canonical show caption gives title T and, as the season, the raw segment text ("Season 1", "Specials"), or "Cover" without " - " |
| LegacyPosterDbHelper.MoviePlainCaption | plex-posterdb-helper.py:91-103 | "T (YYYY)" gives title T and year YYYY |
| LegacyPosterDbHelper.MovieFoldedCaption | plex-posterdb-helper.py:92-96 | a second chunk whose length is not 5 is folded back into the title |
| LegacyPosterDbHelper.TvTargets | plex-posterdb-helper.py:118-125 | "Cover" goes to the show, "Special" to the season "Specials", any other text to the season with that title |
| LegacyPosterDbHelper.UploadCollectionPoster | plex-posterdb-helper.py:144-158 | one upload and pause for the first collection with exactly the poster's title, nothing when none has it; an unreadable collection list raises NameError and a refused upload escapes |
| LegacyPosterDbHelper.SetPosters | plex-posterdb-helper.py:160-170 | a set with collection posters raises the arity TypeError before any upload; otherwise the movies, then the shows |
| LegacyPosterDbHelper.CollectionSetsCrash | plex-posterdb-helper.py:163-164 | a scraped set raises the TypeError exactly when it has collection posters, and then uploads nothing |
| LegacyPosterDbHelper.SetPostersPaused | plex-posterdb-helper.py:127-128 | every upload that went through is followed at once by the 6-second pause |

## Left out

- Network and HTML. `requests.get` is a fetch oracle. The parsed page is a record of the parts the scrapers read: the grid cards, the script texts, the count attribute and the set link. BeautifulSoup's searches are not modelled.
- `json.loads` of the MediUX script and `json.load`/`json.dump` of the cache record are foreign. The cache holds the parsed JSON object as a sequence of key/value pairs.
- The `fleep` file-type sniffer is an oracle. An empty extension list stands for the exception that `save_asset` catches.
- plexapi is a set of values: section lookups, collections, seasons and episodes. The calls that would raise are a set of refused events.
- `time.sleep(6)` is a `Pause(6)` event. The model has no timing.
- Configuration and setup are left out: `plex_setup`, `cache_setup`, `create_cache_folder`, `load_config`/`save_config`, `get_mediux_filters`, and reading and saving the bulk file. The filters, cache root and `cache_enabled` flag are parameters.
- The GUI, threads, the interactive CLI, `parse_cli_urls` and `cleanup` are user interface. `upload_tv_poster2` in the older script is never called.
- The `.html` branch of `scrape` reads a local file. It is an oracle, like the fetch.
- Unicode digits are not modelled:
  - `\d` in the regular expression and `int()` accept non-ASCII digits in Python.
  - The model's digits are the ASCII ones only.
  - White space is not affected: `strip()` uses CPython's own white-space set, Unicode included.
- Media.Sanitize: only the characters that are invalid on every platform are removed. Reserved names and length limits are not modelled.
- Media.SetAttr: a JSON value of the wrong type for its field is skipped, while Python would store it. Unknown keys are ignored, while Python would add an attribute. Neither happens with records of the model's own writing.
- Media.FromIsoFormat: only the `YYYY-MM-DDTHH:MM:SS` shape that `isoformat` writes for whole-second datetimes is read.
- Sync.SecondRunQuiet:
  - It assumes the asset starts as a scraper makes it, not yet uploaded.
  - It assumes a record found on the first run describes the same asset.
  - A found record whose identity differs is stored under a path that the second run does not look up.
- Sync.SetPosters, Batch.ParseUrls and Batch.ScrapeEntireUser: when an exception escapes, the result is the exception alone. It does not list the uploads made before it. The older scripts' `SetPosters` keep them.
- The colon fallback of `find_in_library` passes `poster.title.split(" ")`. `": "[1]` is a space, so the lookup gets a word list, not the text after the colon. The model does what the code does. `Library.ColonFallbackAsksForWords` shows it with "Star Wars: Andor".
- `math.ceil(upload_count/24)` on a float is integer ceiling division. The two agree for every count below 2^53.
- `unicode_escape` decoding in the older script's MediUX parser is an oracle.
