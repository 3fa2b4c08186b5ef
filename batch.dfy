/** The URL layer of the helper: which lines of a bulk list are URLs, which
    scraper a URL goes to, the pages of a user's uploads, and `set_posters`
    on a URL, which scrapes it and hands the posters to the uploaders. The
    network and BeautifulSoup are replaced by the page a URL yields. */
module Batch {
  import opened Wrappers
  import opened Seqs
  import opened PyStr
  import opened Media
  import opened Asset
  import opened PosterDb
  import opened Mediux
  import opened Library
  import opened Sync

  // ---------------------------------------------------------------- bulk lists

  /** `is_not_comment`: `re.match` of `^(?!//|#|^$)` fails when the text
      starts with "//" or "#", or when `^$` matches at its start, which it
      does for the empty text and for a lone newline. */
  predicate IsNotComment(url: string) {
    !StartsWith(url, "//") && !StartsWith(url, "#") && url != "" && url != "\n"
  }

  /** The test `parse_urls` keeps a stripped line by. */
  predicate Kept(url: string) {
    url != "" && !StartsWith(url, "#") && !StartsWith(url, "//")
  }

  /** A text with no white space at either end. */
  predicate Stripped(s: string) {
    s == [] || (!IsSpace(s[0]) && !IsSpace(s[|s| - 1]))
  }

  /** On a stripped line the filter of `parse_urls` and `is_not_comment`
      agree. */
  lemma KeptIsNotComment(url: string)
    requires Stripped(url)
    ensures Kept(url) <==> IsNotComment(url)
  {
    assert IsSpace("\n"[0]);
  }

  /** What one line contributes: its stripped text, if that passes. */
  function KeepOne(line: string): (r: seq<string>)
    ensures r == [] || (r == [Strip(line)] && IsNotComment(Strip(line)) && Stripped(Strip(line)))
  {
    var url := Strip(line);
    KeptIsNotComment(url);
    if Kept(url) then [url] else []
  }

  /** The stripped lines `parse_urls` keeps, in order. */
  function ValidUrls(lines: seq<string>): (r: seq<string>)
    ensures |r| <= |lines|
    ensures forall k :: 0 <= k < |r| ==> IsNotComment(r[k]) && Stripped(r[k])
  {
    if lines == [] then [] else ValidUrls(lines[..|lines| - 1]) + KeepOne(lines[|lines| - 1])
  }

  /** A URL is kept exactly when it is the stripped text of some line and
      passes the filter. */
  lemma {:induction false} ValidUrlsMembers(lines: seq<string>, u: string)
    ensures u in ValidUrls(lines) <==> Kept(u) && StripsTo(lines, u)
  {
    if lines != [] {
      var init, last := lines[..|lines| - 1], lines[|lines| - 1];
      ValidUrlsMembers(init, u);
      SnocSplit([], lines);
      ValidUrlsSnoc(init, last);
      KeepOneMember(last, u);
      StripsToSnoc(init, last, u);
    }
  }

  /** Some line of `lines` strips to `u`. */
  predicate StripsTo(lines: seq<string>, u: string) {
    exists i :: 0 <= i < |lines| && Strip(lines[i]) == u
  }

  /** A line added at the end strips to `u` or leaves the question to the rest. */
  lemma StripsToSnoc(init: seq<string>, last: string, u: string)
    ensures StripsTo(init + [last], u) <==> StripsTo(init, u) || Strip(last) == u
  {
    var lines := init + [last];
    if StripsTo(lines, u) {
      var i :| 0 <= i < |lines| && Strip(lines[i]) == u;
      if i < |init| {
        assert lines[i] == init[i];
      }
    }
    if StripsTo(init, u) {
      var i :| 0 <= i < |init| && Strip(init[i]) == u;
      assert lines[i] == init[i];
    }
    assert lines[|init|] == last;
  }

  /** A line contributes a URL exactly when its stripped text passes. */
  lemma KeepOneMember(line: string, u: string)
    ensures u in KeepOne(line) <==> Kept(u) && Strip(line) == u
  {
    KeptIsNotComment(Strip(line));
  }

  lemma {:induction false} ValidUrlsConcat(a: seq<string>, b: seq<string>)
    ensures ValidUrls(a + b) == ValidUrls(a) + ValidUrls(b)
    decreases |b|
  {
    if b == [] {
      AppendEmpty(a);
    } else {
      var init, last := b[..|b| - 1], b[|b| - 1];
      ValidUrlsConcat(a, init);
      SnocSplit(a, b);
      ValidUrlsSnoc(a + init, last);
      ValidUrlsSnoc(init, last);
      Assoc(ValidUrls(a), ValidUrls(init), KeepOne(last));
    }
  }

  /** One more line at the end adds what that line contributes. */
  lemma ValidUrlsSnoc(lines: seq<string>, line: string)
    ensures ValidUrls(lines + [line]) == ValidUrls(lines) + KeepOne(line)
  {
    SnocPrefix(lines, line);
  }

  /** Filtering the URLs again keeps every one of them. */
  lemma {:induction false} ValidUrlsIdempotent(lines: seq<string>)
    ensures ValidUrls(ValidUrls(lines)) == ValidUrls(lines)
  {
    if lines != [] {
      var init := lines[..|lines| - 1];
      var tail := KeepOne(lines[|lines| - 1]);
      ValidUrlsIdempotent(init);
      ValidUrlsConcat(ValidUrls(init), tail);
      if tail != [] {
        StripNoSpace(tail[0]);
        KeptIsNotComment(tail[0]);
        assert [] + tail == tail;
        assert ValidUrls(tail) == ValidUrls([]) + KeepOne(tail[0]);
      }
    }
  }

  /** The user URLs at the head of the list: `parse_urls` scrapes each of
      them and returns at the first other URL. */
  function UserRun(urls: seq<string>): (r: seq<string>)
    ensures |r| <= |urls| && r == urls[..|r|]
    ensures forall k :: 0 <= k < |r| ==> Contains(r[k], "/user/")
    ensures |r| < |urls| ==> !Contains(urls[|r|], "/user/")
  {
    if urls == [] || !Contains(urls[0], "/user/") then [] else [urls[0]] + UserRun(urls[1..])
  }

  /** A run of user URLs at the head splits off the rest. */
  lemma {:induction false} UserRunPrefix(urls: seq<string>, j: nat)
    requires j <= |urls| && forall k :: 0 <= k < j ==> Contains(urls[k], "/user/")
    ensures UserRun(urls) == urls[..j] + UserRun(urls[j..])
  {
    if j > 0 {
      UserRunPrefix(urls[1..], j - 1);
      ConsSplit(urls, j);
      Assoc([urls[0]], urls[1..][..j - 1], UserRun(urls[j..]));
    }
  }

  // ---------------------------------------------------------------- dispatch

  /** The page a URL yields, as far as the scrapers look at it: the poster
      grid, the "view all" link, the upload count and the script texts. */
  datatype Page = Page(grid: Option<seq<Card>>, setLink: Option<string>, countText: Option<string>, scripts: seq<string>)

  /** `cook_soup` for web pages, reading a local file, `json.loads` and the
      MediUX filters of the configuration. */
  datatype Web = Web(cook: string -> Page, open: string -> Option<Page>, decode: string -> Result<SetDoc>,
                     filters: Option<seq<string>>)

  /** Which branch of `scrape` a URL takes. `NoVia` is a theposterdb URL
      that is none of a set, a user or a poster page: `scrape` then falls
      off its end and returns None. */
  datatype Via = PosterDbSet | PosterDbPoster | MediuxSet | LocalHtml | NoVia

  const NotFound := "Poster set not found. Check the link you are inputting."

  function Route(url: string): (r: Result<Via>)
    ensures r.Failure? <==>
            !Contains(url, "theposterdb.com") && !(Contains(url, "mediux.pro") && Contains(url, "sets")) &&
            !Contains(url, ".html")
    ensures r.Failure? ==> r.error == SystemExit(NotFound)
    ensures r == Success(NoVia) <==>
            Contains(url, "theposterdb.com") && !Contains(url, "/set/") && !Contains(url, "/user/") &&
            !Contains(url, "/poster/")
  {
    if Contains(url, "theposterdb.com") then
      if Contains(url, "/set/") || Contains(url, "/user/") then Success(PosterDbSet)
      else if Contains(url, "/poster/") then Success(PosterDbPoster)
      else Success(NoVia)
    else if Contains(url, "mediux.pro") && Contains(url, "sets") then Success(MediuxSet)
    else if Contains(url, ".html") then Success(LocalHtml)
    else Failure(SystemExit(NotFound))
  }

  /** theposterdb is checked first, so its URLs never reach the MediUX or the
      local-file branch. */
  lemma PosterDbFirst(url: string)
    requires Contains(url, "theposterdb.com")
    ensures Route(url).Success? && Route(url).value in {PosterDbSet, PosterDbPoster, NoVia}
  {
  }

  function Lift(r: Result<Scraped>): Result<Option<Scraped>> {
    match r
    case Success(sc) => Success(Some(sc))
    case Failure(e) => Failure(e)
  }

  /** What `scrape` returns or raises for a URL. A poster page goes through
      its "view all" link; a local file that cannot be opened raises. */
  function ScrapeSpec(url: string, web: Web): Result<Option<Scraped>> {
    match Route(url)
    case Failure(e) => Failure(e)
    case Success(via) =>
      match via
      case PosterDbSet => Lift(PosterdbSpec(web.cook(url).grid))
      case PosterDbPoster =>
        (match web.cook(url).setLink
         case None => Failure(SystemExit(NotFound))
         case Some(link) => Lift(PosterdbSpec(web.cook(link).grid)))
      case MediuxSet => Lift(MediuxSpec(web.cook(url).scripts, web.filters, web.decode))
      case LocalHtml =>
        (match web.open(url)
         case None => Failure(OSError("No such file or directory"))
         case Some(page) => Lift(PosterdbSpec(page.grid)))
      case NoVia => Success(None)
  }

  /** `scrape`. */
  method Scrape(url: string, web: Web) returns (r: Result<Option<Scraped>>)
    ensures r == ScrapeSpec(url, web)
  {
    var via := Route(url);
    if via.Failure? {
      return Failure(via.error);
    }
    var scraped: Result<Scraped>;
    match via.value {
      case PosterDbSet =>
        scraped := ScrapePosterdb(web.cook(url).grid);
      case PosterDbPoster =>
        var link := web.cook(url).setLink;
        if link.None? {
          return Failure(SystemExit(NotFound));
        }
        scraped := ScrapePosterdb(web.cook(link.value).grid);
      case MediuxSet =>
        scraped := ScrapeMediux(web.cook(url).scripts, web.filters, web.decode);
      case LocalHtml =>
        var page := web.open(url);
        if page.None? {
          return Failure(OSError("No such file or directory"));
        }
        scraped := ScrapePosterdb(page.value.grid);
      case NoVia =>
        return Success(None);
    }
    r := Lift(scraped);
  }

  /** Whatever `scrape` returns is fresh. */
  lemma ScrapedFresh(url: string, web: Web)
    ensures ScrapeSpec(url, web).Success? && ScrapeSpec(url, web).value.Some? ==> AllFresh(ScrapeSpec(url, web).value.value)
  {
    match Route(url) {
      case Success(PosterDbSet) => GridFresh(web.cook(url).grid);
      case Success(PosterDbPoster) =>
        if web.cook(url).setLink.Some? {
          GridFresh(web.cook(web.cook(url).setLink.value).grid);
        }
      case Success(MediuxSet) => MediuxFresh(web.cook(url).scripts, web.filters, web.decode);
      case Success(LocalHtml) =>
        if web.open(url).Some? {
          GridFresh(web.open(url).value.grid);
        }
      case _ =>
    }
  }

  lemma GridFresh(grid: Option<seq<Card>>)
    ensures PosterdbSpec(grid).Success? ==> AllFresh(PosterdbSpec(grid).value)
  {
    if grid.Some? {
      ScrapeCardsFresh(grid.value);
    }
  }

  // ---------------------------------------------------------------- set_posters on a URL

  /** Unpacking the None that `scrape` returns. */
  const NoUnpack := TypeError("cannot unpack non-iterable NoneType object")

  /** `set_posters(url, tv, movies)`: the scrape, then the posters in
      `set_posters`' order, with the cache or without it. */
  function PostersAt(env: Env, web: Web, url: string, cacheEnabled: bool, records: map<string, JsonObject>,
                     files: map<string, seq<byte>>): Run
  {
    match ScrapeSpec(url, web)
    case Failure(e) => Run(records, files, Failure(e))
    case Success(None) => Run(records, files, Failure(NoUnpack))
    case Success(Some(sc)) =>
      ScrapedFresh(url, web);
      FreshQueue(sc);
      if cacheEnabled then CachedRun(env, Queue(sc), records, files)
      else Run(records, files, Success(DirectEvents(env.upload, Queue(sc))))
  }

  method SetPostersAt(env: Env, web: Web, url: string, cacheEnabled: bool, cache: CacheStore) returns (r: Result<seq<Event>>)
    modifies cache
    ensures var run := PostersAt(env, web, url, cacheEnabled, old(cache.records), old(cache.files));
            r == run.result && cache.records == run.records && cache.files == run.files
  {
    var scraped := Scrape(url, web);
    if scraped.Failure? {
      return Failure(scraped.error);
    }
    if scraped.value.None? {
      return Failure(NoUnpack);
    }
    var sc := scraped.value.value;
    ScrapedFresh(url, web);
    FreshQueue(sc);
    r := SetPosters(env, sc, cacheEnabled, cache);
  }

  /** What one `set_posters` call on a URL does, from the cache it starts on. */
  type Setter = (string, map<string, JsonObject>, map<string, seq<byte>>) -> Run

  function SetterOf(env: Env, web: Web, cacheEnabled: bool): Setter {
    (url: string, records: map<string, JsonObject>, files: map<string, seq<byte>>) =>
      PostersAt(env, web, url, cacheEnabled, records, files)
  }

  /** Several `set_posters` calls in turn, each on the cache the previous
      one left; an exception stops them. */
  function PagesRun(setter: Setter, urls: seq<string>, records: map<string, JsonObject>,
                    files: map<string, seq<byte>>): Run
  {
    if urls == [] then Run(records, files, Success([]))
    else
      var prev := PagesRun(setter, urls[..|urls| - 1], records, files);
      if prev.result.Failure? then prev
      else Extend(prev, setter(urls[|urls| - 1], prev.records, prev.files))
  }

  /** A run that went on after `prev`. */
  function Extend(prev: Run, next: Run): Run
    requires prev.result.Success?
  {
    Run(next.records, next.files,
        match next.result
        case Failure(e) => Failure(e)
        case Success(events) => Success(prev.result.value + events))
  }

  /** Running two lists of URLs is running their concatenation. */
  lemma {:induction false} PagesRunConcat(setter: Setter, a: seq<string>, b: seq<string>,
                                          records: map<string, JsonObject>, files: map<string, seq<byte>>)
    ensures var ra := PagesRun(setter, a, records, files);
            PagesRun(setter, a + b, records, files) ==
            if ra.result.Failure? then ra else Extend(ra, PagesRun(setter, b, ra.records, ra.files))
    decreases |b|
  {
    var ra := PagesRun(setter, a, records, files);
    if b == [] {
      assert a + b == a;
      if ra.result.Success? {
        assert ra.result.value + [] == ra.result.value;
      }
    } else {
      var init, last := b[..|b| - 1], b[|b| - 1];
      PagesRunConcat(setter, a, init, records, files);
      assert (a + b)[..|a + b| - 1] == a + init;
      assert (a + b)[|a + b| - 1] == last;
      if ra.result.Success? {
        var q := PagesRun(setter, init, ra.records, ra.files);
        if q.result.Success? {
          var n := setter(last, q.records, q.files);
          if n.result.Success? {
            assert ra.result.value + (q.result.value + n.result.value) == (ra.result.value + q.result.value) + n.result.value;
          }
        }
      }
    }
  }

  /** A run that failed stays failed. */
  lemma {:induction false} PagesRunStops(setter: Setter, urls: seq<string>, records: map<string, JsonObject>,
                                         files: map<string, seq<byte>>, i: nat)
    requires i <= |urls| && PagesRun(setter, urls[..i], records, files).result.Failure?
    ensures PagesRun(setter, urls, records, files) == PagesRun(setter, urls[..i], records, files)
    decreases |urls| - i
  {
    if i < |urls| {
      TakeSnoc(urls, i);
      PagesRunStops(setter, urls, records, files, i + 1);
    } else {
      assert urls[..i] == urls;
    }
  }

  // ---------------------------------------------------------------- a user's uploads

  const PageQuery := "?section=uploads&page="

  /** The user URL without its query: `url.split("?")[0]` when it has one. */
  function UserBase(url: string): (r: string)
    ensures !Contains(r, "?")
    ensures !Contains(url, "?") ==> r == url
    ensures Contains(url, "?") ==> r == url[..Find(url, "?")]
  {
    SplitHead(url, "?");
    if Contains(url, "?") then
      BeforeFirstFree(url, "?");
      Split(url, "?")[0]
    else url
  }

  /** The URLs of pages 1 to `pages`; none for a count that is not positive,
      as `range` gives. */
  function PageUrls(base: string, pages: int): (r: seq<string>)
    ensures |r| == if pages > 0 then pages else 0
    ensures forall k :: 0 <= k < |r| ==> r[k] == base + PageQuery + IntToStr(k + 1)
    decreases pages
  {
    if pages <= 0 then [] else PageUrls(base, pages - 1) + [base + PageQuery + IntToStr(pages)]
  }

  /** Each page URL names its own page: the text after the query prefix is
      the page number, and no two pages share a URL. */
  lemma PageNumberParses(base: string, pages: int, k: nat)
    requires k < |PageUrls(base, pages)|
    ensures var u := PageUrls(base, pages)[k];
            StartsWith(u, base + PageQuery) && ParseInt(u[|base + PageQuery|..]) == Some(k + 1)
  {
    var u := PageUrls(base, pages)[k];
    assert u[|base + PageQuery|..] == IntToStr(k + 1);
    IntToStrParses(k + 1);
  }

  lemma PageUrlsDistinct(base: string, pages: int, i: nat, j: nat)
    requires i < j < |PageUrls(base, pages)|
    ensures PageUrls(base, pages)[i] != PageUrls(base, pages)[j]
  {
    PageNumberParses(base, pages, i);
    PageNumberParses(base, pages, j);
  }

  /** The page URLs `scrape_entire_user` passes to `set_posters`: none when
      the page count is None or 0. */
  function UserPageUrls(url: string, web: Web): seq<string> {
    match UserPages(web.cook(url).countText)
    case None => []
    case Some(pages) => if pages == 0 then [] else PageUrls(UserBase(url), pages)
  }

  /** `scrape_entire_user`. */
  method ScrapeEntireUser(env: Env, web: Web, url: string, cacheEnabled: bool, cache: CacheStore) returns (r: Result<seq<Event>>)
    modifies cache
    ensures var run := PagesRun(SetterOf(env, web, cacheEnabled), UserPageUrls(url, web), old(cache.records), old(cache.files));
            r == run.result && cache.records == run.records && cache.files == run.files
  {
    ghost var setter := SetterOf(env, web, cacheEnabled);
    var pages := UserPages(web.cook(url).countText);
    UserPageUrlsOf(url, web);
    if pages.None? || pages.value == 0 {
      return Success([]);
    }
    var base := url;
    if Contains(url, "?") {
      base := Split(url, "?")[0];
    }
    assert base == UserBase(url);
    r := SetPages(env, web, cacheEnabled, cache, base, pages.value);
  }

  /** The loop of `scrape_entire_user`: `set_posters` on pages 1 to `count`. */
  method SetPages(env: Env, web: Web, cacheEnabled: bool, cache: CacheStore, base: string, count: int)
    returns (r: Result<seq<Event>>)
    modifies cache
    ensures var run := PagesRun(SetterOf(env, web, cacheEnabled), PageUrls(base, count), old(cache.records), old(cache.files));
            r == run.result && cache.records == run.records && cache.files == run.files
  {
    ghost var setter := SetterOf(env, web, cacheEnabled);
    var n := if count > 0 then count else 0;
    var events: seq<Event> := [];
    for page := 0 to n
      invariant PagesRun(setter, PageUrls(base, page), old(cache.records), old(cache.files)) ==
                Run(cache.records, cache.files, Success(events))
    {
      var pageUrl := base + PageQuery + IntToStr(page + 1);
      assert PageUrls(base, page + 1) == PageUrls(base, page) + [pageUrl];
      var step := SetNext(env, web, cacheEnabled, cache, PageUrls(base, page), pageUrl, events, old(cache.records), old(cache.files));
      if step.Failure? {
        PageUrlsPrefix(base, n, page + 1);
        PagesRunStops(setter, PageUrls(base, n), old(cache.records), old(cache.files), page + 1);
        assert PageUrls(base, n) == PageUrls(base, count);
        return Failure(step.error);
      }
      events := events + step.value;
    }
    assert PageUrls(base, n) == PageUrls(base, count);
    r := Success(events);
  }

  lemma UserPageUrlsOf(url: string, web: Web)
    ensures var pages := UserPages(web.cook(url).countText);
            UserPageUrls(url, web) ==
            if pages.None? || pages.value <= 0 then [] else PageUrls(UserBase(url), pages.value)
  {
  }

  /** One more `set_posters` call after the calls on `done`. */
  method SetNext(env: Env, web: Web, cacheEnabled: bool, cache: CacheStore, ghost done: seq<string>, url: string,
                 ghost events: seq<Event>, ghost records: map<string, JsonObject>, ghost files: map<string, seq<byte>>)
    returns (r: Result<seq<Event>>)
    requires PagesRun(SetterOf(env, web, cacheEnabled), done, records, files) == Run(cache.records, cache.files, Success(events))
    modifies cache
    ensures var run := PagesRun(SetterOf(env, web, cacheEnabled), done + [url], records, files);
            run.records == cache.records && run.files == cache.files &&
            run.result == (if r.Failure? then r else Success(events + r.value))
  {
    r := SetPostersAt(env, web, url, cacheEnabled, cache);
    assert (done + [url])[..|done|] == done;
  }

  lemma PageUrlsPrefix(base: string, pages: nat, i: nat)
    requires i <= pages
    ensures PageUrls(base, pages)[..i] == PageUrls(base, i)
  {
  }

  // ---------------------------------------------------------------- parse_urls

  /** The page URLs of the users, one user after the other. */
  function AllUserPages(users: seq<string>, pagesOf: string -> seq<string>): seq<string> {
    if users == [] then [] else AllUserPages(users[..|users| - 1], pagesOf) + pagesOf(users[|users| - 1])
  }

  function PagesOf(web: Web): string -> seq<string> {
    (user: string) => UserPageUrls(user, web)
  }

  /** `parse_urls`: the URLs of the list, after every user URL at its head
      had its uploads scraped and set. */
  method ParseUrls(env: Env, web: Web, lines: seq<string>, cacheEnabled: bool, cache: CacheStore)
    returns (valid: seq<string>, r: Result<seq<Event>>)
    modifies cache
    ensures valid == ValidUrls(lines)
    ensures var run := PagesRun(SetterOf(env, web, cacheEnabled), AllUserPages(UserRun(valid), PagesOf(web)),
                                old(cache.records), old(cache.files));
            r == run.result && cache.records == run.records && cache.files == run.files
  {
    valid := KeptUrls(lines);
    r := SetUsers(env, web, valid, cacheEnabled, cache);
  }

  /** The second loop of `parse_urls`: `scrape_entire_user` on each user URL
      at the head of the list, up to the first other URL. */
  method SetUsers(env: Env, web: Web, valid: seq<string>, cacheEnabled: bool, cache: CacheStore)
    returns (r: Result<seq<Event>>)
    modifies cache
    ensures var run := PagesRun(SetterOf(env, web, cacheEnabled), AllUserPages(UserRun(valid), PagesOf(web)),
                                old(cache.records), old(cache.files));
            r == run.result && cache.records == run.records && cache.files == run.files
  {
    ghost var setter, pagesOf := SetterOf(env, web, cacheEnabled), PagesOf(web);
    var events: seq<Event> := [];
    var j := 0;
    while j < |valid|
      invariant j <= |UserRun(valid)|
      invariant PagesRun(setter, AllUserPages(valid[..j], pagesOf), old(cache.records), old(cache.files)) ==
                Run(cache.records, cache.files, Success(events))
    {
      var url := valid[j];
      if !Contains(url, "/user/") {
        break;
      }
      UserRunNext(valid, j);
      assert valid[..j + 1] == valid[..j] + [url];
      var step := SetNextUser(env, web, cacheEnabled, cache, valid[..j], url, events, old(cache.records), old(cache.files));
      if step.Failure? {
        UsersStop(setter, pagesOf, valid, j + 1, old(cache.records), old(cache.files));
        return step;
      }
      events := events + step.value;
      j := j + 1;
    }
    UsersDone(valid, j);
    return Success(events);
  }

  /** A failed user stops `parse_urls`: the users after it are not run. */
  lemma UsersStop(setter: Setter, pagesOf: string -> seq<string>, valid: seq<string>, j: nat,
                  records: map<string, JsonObject>, files: map<string, seq<byte>>)
    requires j <= |UserRun(valid)|
    requires PagesRun(setter, AllUserPages(valid[..j], pagesOf), records, files).result.Failure?
    ensures PagesRun(setter, AllUserPages(UserRun(valid), pagesOf), records, files) ==
            PagesRun(setter, AllUserPages(valid[..j], pagesOf), records, files)
  {
    var run := UserRun(valid);
    assert run[..j] == valid[..j];
    assert run == valid[..j] + run[j..];
    AllUserPagesPrefix(valid[..j], run[j..], pagesOf);
    PagesRunConcat(setter, AllUserPages(valid[..j], pagesOf), AllUserPages(run[j..], pagesOf), records, files);
  }

  /** A user URL inside the list's head run of user URLs. */
  lemma UserRunNext(valid: seq<string>, j: nat)
    requires j <= |UserRun(valid)| && j < |valid| && Contains(valid[j], "/user/")
    ensures j < |UserRun(valid)|
  {
  }

  /** Where the loop of `parse_urls` ends, the run of user URLs ends. */
  lemma UsersDone(valid: seq<string>, j: nat)
    requires j <= |UserRun(valid)|
    requires j < |valid| ==> !Contains(valid[j], "/user/")
    ensures UserRun(valid) == valid[..j]
  {
  }

  /** The first loop of `parse_urls`: the stripped lines that pass. */
  method KeptUrls(lines: seq<string>) returns (valid: seq<string>)
    ensures valid == ValidUrls(lines)
  {
    valid := [];
    for i := 0 to |lines|
      invariant valid == ValidUrls(lines[..i])
    {
      TakeSnoc(lines, i);
      ValidUrlsSnoc(lines[..i], lines[i]);
      var url := Strip(lines[i]);
      if url != "" && !StartsWith(url, "#") && !StartsWith(url, "//") {
        valid := valid + [url];
      }
    }
    TakeAll(lines);
  }

  /** One more `scrape_entire_user` call after the calls on `done`. */
  method SetNextUser(env: Env, web: Web, cacheEnabled: bool, cache: CacheStore, ghost done: seq<string>, url: string,
                     ghost events: seq<Event>, ghost records: map<string, JsonObject>, ghost files: map<string, seq<byte>>)
    returns (r: Result<seq<Event>>)
    requires PagesRun(SetterOf(env, web, cacheEnabled), AllUserPages(done, PagesOf(web)), records, files) ==
             Run(cache.records, cache.files, Success(events))
    modifies cache
    ensures var run := PagesRun(SetterOf(env, web, cacheEnabled), AllUserPages(done + [url], PagesOf(web)), records, files);
            run.records == cache.records && run.files == cache.files &&
            run.result == (if r.Failure? then r else Success(events + r.value))
  {
    ghost var setter, pagesOf := SetterOf(env, web, cacheEnabled), PagesOf(web);
    assert (done + [url])[..|done|] == done;
    assert AllUserPages(done + [url], pagesOf) == AllUserPages(done, pagesOf) + UserPageUrls(url, web);
    PagesRunConcat(setter, AllUserPages(done, pagesOf), UserPageUrls(url, web), records, files);
    r := ScrapeEntireUser(env, web, url, cacheEnabled, cache);
  }

  lemma {:induction false} AllUserPagesPrefix(a: seq<string>, b: seq<string>, pagesOf: string -> seq<string>)
    ensures AllUserPages(a + b, pagesOf) == AllUserPages(a, pagesOf) + AllUserPages(b, pagesOf)
    decreases |b|
  {
    if b == [] {
      assert a + b == a;
    } else {
      var init := b[..|b| - 1];
      AllUserPagesPrefix(a, init, pagesOf);
      assert (a + b)[..|a + b| - 1] == a + init;
    }
  }
}
