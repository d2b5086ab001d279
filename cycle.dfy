/**
 * One refresh of the result cache and one "change wallpaper" cycle, as
 * functions of the state before them and of what the outside world
 * answers: the configuration file, the search API, the download and the
 * desktop. The random draws are plain numbers: the requested page is
 * 1 + draw % pages and the chosen image is content[draw % |content|], so
 * every value the random generator could produce is some draw's value.
 */
module Cycle {
  import opened Wrappers
  import opened Config
  import opened SearchUrl

  const U64Max: int := 0xFFFF_FFFF_FFFF_FFFF

  /** An unsigned 64-bit integer, the type of the page count. */
  type u64 = x: int | 0 <= x <= 0xFFFF_FFFF_FFFF_FFFF

  /** The paginated result cache: the image paths of the page fetched last
      and the total page count, where 1 also stands for "not yet known". */
  datatype Cache = Cache(content: seq<string>, pages: u64)

  /** The cache the application starts with. */
  function InitialCache(): (c: Cache)
    ensures c.content == [] && c.pages == 1
  {
    Cache([], 1)
  }

  /** A search response once parsed: the "path" of every element of
      "data" (None where it is missing or not a string) and "meta.last_page"
      (None where it is missing or not an unsigned 64-bit integer). */
  datatype Response = Response(data: seq<Option<string>>, lastPage: Option<u64>)

  /** What ends a cycle early. EmptyPageRange, PathMissing and
      LastPageMissing are panics in the application; the rest are errors
      it returns. */
  datatype Failure =
    | ConfigUnreadable
    | ConfigReloadFailed
    | EmptyPageRange
    | RequestFailed
    | PathMissing
    | LastPageMissing
    | DownloadFailed
    | ApplyFailed

  datatype Outcome = Pass | Fail(failure: Failure)

  const NothingFound: string := "Nothing found. Check your config file and internet connection"

  /** The visible actions a cycle attempts, in order. */
  datatype Effect =
    | Request(url: string)
    | Warn(message: string)
    | Download(url: string)
    | Apply(path: string)
    | OpenEditor

  /** A state together with the effects that led to it and how it ended. */
  datatype Step<S> = Step(state: S, effects: seq<Effect>, outcome: Outcome)

  /** What one fetch is given: the random draw for the page number and the
      parsed response (None when the request or the JSON parse failed). */
  datatype Fetch = Fetch(pageDraw: nat, response: Option<Response>)

  /** Which page the request asks for. */
  datatype PageChoice = FirstPage | Page(number: nat) | EmptyRange

  /** The page selection: no page parameter while the count is the sentinel
      1; otherwise a page in [1, pages]. For pages == 0 the range 1..1 is
      empty and for pages == u64::MAX the bound pages + 1 overflows; the
      application panics in both cases. */
  function PageToRequest(pages: u64, draw: nat): (r: PageChoice)
    ensures r == FirstPage <==> pages == 1
    ensures r == EmptyRange <==> pages == 0 || pages == U64Max
    ensures r.Page? ==> 1 <= r.number <= pages && pages != 1
  {
    if pages == 1 then FirstPage
    else if pages == 0 || pages == U64Max then EmptyRange
    else Page(1 + draw % pages)
  }

  /** Every page in [1, pages] is requested for some draw. */
  lemma EveryPageReachable(pages: u64, k: nat)
    requires 1 < pages < U64Max && 1 <= k <= pages
    ensures PageToRequest(pages, k - 1) == Page(k)
  {
    ModOfSmaller(k - 1, pages);
  }

  /** A draw below the bound is taken as it is. */
  lemma ModOfSmaller(a: nat, n: nat)
    requires a < n
    ensures a % n == a
  {
    var q, r := a / n, a % n;
    assert a == n * q + r && 0 <= r < n;
  }

  /** The URL a page choice leads to. */
  function ChoiceLink(s: Search, choice: PageChoice): string
    requires !choice.EmptyRange?
  {
    RequestLink(s, if choice.Page? then Some(choice.number) else None)
  }

  /** The image paths of a response, in response order; None as soon as
      one path is missing. */
  function Images(data: seq<Option<string>>): (r: Option<seq<string>>)
    ensures r.None? <==> exists i :: 0 <= i < |data| && data[i].None?
    ensures r.Some? ==> |r.value| == |data| &&
                        forall i :: 0 <= i < |data| ==> data[i] == Some(r.value[i])
    decreases |data|
  {
    if data == [] then Some([])
    else match data[0]
      case None => None
      case Some(path) =>
        match Images(data[1..])
        case None => None
        case Some(rest) => Some([path] + rest)
  }

  /** The cache refresh: build the URL, ask for one page, warn when it is
      empty, learn the page count if it is unknown, and keep the new paths.
      On every failure the cache is left as it was. A successful refresh
      keeps the response's paths in response order, even when there are
      none, and overwrites the page count with last_page only when it was
      the sentinel 1. */
  function UpdateList(cache: Cache, search: Search, fetch: Fetch): (r: Step<Cache>)
    ensures r.outcome.Fail? ==> r.state == cache
    ensures forall e :: e in r.effects ==> e.Request? || e.Warn?
    ensures PageToRequest(cache.pages, fetch.pageDraw).EmptyRange? ==> r.effects == []
    ensures !PageToRequest(cache.pages, fetch.pageDraw).EmptyRange? ==>
              r.effects == [Request(ChoiceLink(search, PageToRequest(cache.pages, fetch.pageDraw)))] +
                           (if fetch.response.Some? && Images(fetch.response.value.data).Some? &&
                               fetch.response.value.data == []
                            then [Warn(NothingFound)] else [])
    ensures r.outcome == Pass <==>
              !PageToRequest(cache.pages, fetch.pageDraw).EmptyRange? &&
              fetch.response.Some? &&
              Images(fetch.response.value.data).Some? &&
              (cache.pages == 1 ==> fetch.response.value.lastPage.Some?)
    ensures r.outcome == Pass ==>
              var data := fetch.response.value.data;
              |r.state.content| == |data| &&
              (forall i :: 0 <= i < |data| ==> data[i] == Some(r.state.content[i])) &&
              r.state.pages == (if cache.pages == 1 then fetch.response.value.lastPage.value
                                else cache.pages)
  {
    var choice := PageToRequest(cache.pages, fetch.pageDraw);
    if choice.EmptyRange? then Step(cache, [], Fail(EmptyPageRange))
    else
      var requested := [Request(ChoiceLink(search, choice))];
      match fetch.response
      case None => Step(cache, requested, Fail(RequestFailed))
      case Some(response) =>
        match Images(response.data)
        case None => Step(cache, requested, Fail(PathMissing))
        case Some(images) =>
          var shown := requested + if response.data == [] then [Warn(NothingFound)] else [];
          if cache.pages != 1 then Step(Cache(images, cache.pages), shown, Pass)
          else match response.lastPage
            case None => Step(cache, shown, Fail(LastPageMissing))
            case Some(last) => Step(Cache(images, last), shown, Pass)
  }

  /** The request: the search URL with "&page=k" for some k in [1, pages]
      exactly when the count is known (not 1), and the bare search URL when
      it is 1. */
  lemma UpdateListRequest(cache: Cache, search: Search, fetch: Fetch)
    requires cache.pages != 0 && cache.pages != U64Max
    ensures var r := UpdateList(cache, search, fetch);
            |r.effects| >= 1 &&
            (cache.pages == 1 ==> r.effects[0] == Request(SearchLink(search))) &&
            (cache.pages != 1 ==> exists k :: 1 <= k <= cache.pages &&
                                   r.effects[0] == Request(SearchLink(search) + "&page=" + Decimal(k)))
  {
    var choice := PageToRequest(cache.pages, fetch.pageDraw);
    if cache.pages != 1 {
      var k := choice.number;
      assert UpdateList(cache, search, fetch).effects[0] ==
             Request(SearchLink(search) + "&page=" + Decimal(k));
    }
  }

  /** An empty "data" array is reported with a warning but is not an error
      in itself; the cache then holds no paths. */
  lemma EmptyResponseWarns(cache: Cache, search: Search, fetch: Fetch)
    requires cache.pages != 0 && cache.pages != U64Max
    requires fetch.response.Some? && fetch.response.value.data == []
    requires cache.pages == 1 ==> fetch.response.value.lastPage.Some?
    ensures var r := UpdateList(cache, search, fetch);
            r.outcome == Pass && r.state.content == [] &&
            Warn(NothingFound) in r.effects
  {
    var r := UpdateList(cache, search, fetch);
    assert r.effects[1] == Warn(NothingFound);
  }

  /** Choosing an image: None exactly when there is nothing to choose from,
      otherwise one of the cached paths. It reads the content and changes
      nothing. */
  function Choose(content: seq<string>, draw: nat): (r: Option<string>)
    ensures r.None? <==> content == []
    ensures r.Some? ==> r.value in content
  {
    if content == [] then None else Some(content[draw % |content|])
  }

  /** Every cached path is chosen for some draw. */
  lemma EveryImageReachable(content: seq<string>, i: nat)
    requires i < |content|
    ensures Choose(content, i) == Some(content[i])
  {
    ModOfSmaller(i, |content|);
  }

  /** The application state a cycle works on. */
  datatype AppState = AppState(config: Config, cache: Cache)

  /** The change check: None when the file cannot be read or parsed, else
      whether the file's configuration differs from the one in use. */
  function ConfigChanged(current: Config, onDisk: Option<Config>): (r: Option<bool>)
    ensures r.None? <==> onDisk.None?
    ensures r.Some? ==> (r.value <==> current != onDisk.value)
  {
    match onDisk
    case None => None
    case Some(c) => Some(current != c)
  }

  /** Identical configurations are not a change; configurations that differ
      in exactly one search string are. */
  lemma ChangeDetection(current: Config, other: Config, k: nat)
    requires k < FieldCount
    requires Values(current.search)[k] != Values(other.search)[k]
    requires forall i :: 0 <= i < FieldCount && i != k ==> Values(current.search)[i] == Values(other.search)[i]
    ensures ConfigChanged(current, Some(current)) == Some(false)
    ensures ConfigChanged(current, Some(other)) == Some(true)
  {
    DifferInOneFieldUnequal(current, other, k);
  }

  /** The first part of a cycle: on a detected change, reload the file and
      reset the page count to the sentinel 1; otherwise change nothing. */
  function CheckConfig(s: AppState, onDisk: Option<Config>, reloaded: Option<Config>): (r: Step<AppState>)
    ensures r.effects == []
    ensures r.outcome.Fail? ==> r.state == s
    ensures r.outcome == Pass ==> onDisk.Some?
    ensures r.outcome == Pass && onDisk.value == s.config ==> r.state == s
    ensures r.outcome == Pass && onDisk.value != s.config ==>
              reloaded.Some? && r.state == AppState(reloaded.value, s.cache.(pages := 1))
    ensures r.outcome == Pass <==> onDisk.Some? && (onDisk.value != s.config ==> reloaded.Some?)
    ensures r.outcome == Fail(ConfigUnreadable) <==> onDisk.None?
    ensures r.outcome == Fail(ConfigReloadFailed) <==>
              onDisk.Some? && onDisk.value != s.config && reloaded.None?
  {
    match ConfigChanged(s.config, onDisk)
    case None => Step(s, [], Fail(ConfigUnreadable))
    case Some(false) => Step(s, [], Pass)
    case Some(true) =>
      match reloaded
      case None => Step(s, [], Fail(ConfigReloadFailed))
      case Some(c) => Step(AppState(c, s.cache.(pages := 1)), [], Pass)
  }

  /** Everything one ChangeWallpaper message is given. */
  datatype CycleInput = CycleInput(
    onDisk: Option<Config>,      // the file as read by the change check
    reloaded: Option<Config>,    // the file as read again by the reload
    fetch: Fetch,
    pickDraw: nat,
    downloaded: Option<string>,  // the saved file's path, None when the download failed
    applied: bool)               // whether setting the wallpaper succeeded

  /** What the last part of a cycle does besides changing state. */
  datatype Action = Action(effects: seq<Effect>, outcome: Outcome)

  /** The last part of a cycle: with an image chosen from the content,
      download it and, if that gave a path, set it as the wallpaper; with
      nothing to choose from, do nothing and succeed. */
  function SetWallpaper(content: seq<string>, input: CycleInput): (r: Action)
    ensures r.effects == [] <==> content == []
    ensures content != [] ==>
              r.effects[0] == Download(content[input.pickDraw % |content|]) &&
              Choose(content, input.pickDraw) == Some(r.effects[0].url)
    ensures forall e :: e in r.effects && e.Download? ==> Some(e.url) == Choose(content, input.pickDraw)
    ensures forall e :: e in r.effects && e.Apply? ==>
              input.downloaded == Some(e.path) && r.effects == [r.effects[0], e] && r.effects[0].Download?
    ensures content != [] && input.downloaded.None? ==>
              r.effects == [Download(content[input.pickDraw % |content|])]
    ensures content != [] && input.downloaded.Some? ==>
              r.effects == [Download(content[input.pickDraw % |content|]), Apply(input.downloaded.value)]
    ensures r.outcome == Pass <==> content == [] || (input.downloaded.Some? && input.applied)
    ensures r.outcome == Fail(DownloadFailed) <==> content != [] && input.downloaded.None?
    ensures r.outcome == Fail(ApplyFailed) <==> content != [] && input.downloaded.Some? && !input.applied
  {
    match Choose(content, input.pickDraw)
    case None => Action([], Pass)
    case Some(link) =>
      match input.downloaded
      case None => Action([Download(link)], Fail(DownloadFailed))
      case Some(path) =>
        Action([Download(link), Apply(path)], if input.applied then Pass else Fail(ApplyFailed))
  }

  /** One ChangeWallpaper cycle: change check, refresh, then download and
      apply when an image was chosen. */
  function WallpaperCycle(s: AppState, input: CycleInput): (r: Step<AppState>)
    ensures r.outcome.Fail? && r.effects == [] ==> r.state == s
  {
    var checked := CheckConfig(s, input.onDisk, input.reloaded);
    if checked.outcome.Fail? then checked
    else
      var s1 := checked.state;
      var updated := UpdateList(s1.cache, s1.config.search, input.fetch);
      var s2 := AppState(s1.config, updated.state);
      if updated.outcome.Fail? then Step(s2, updated.effects, updated.outcome)
      else
        var a := SetWallpaper(s2.cache.content, input);
        Step(s2, updated.effects + a.effects, a.outcome)
  }

  /** Whether an effect list downloads or applies anything. */
  predicate ChangesWallpaper(effects: seq<Effect>)
  {
    exists e :: e in effects && (e.Download? || e.Apply?)
  }

  /** A detected change replaces the configuration and forgets the page
      count before the fetch: the request carries no page parameter, and
      the refresh works on the cache with its count reset to 1. */
  lemma ChangedConfigRequestsFirstPage(s: AppState, input: CycleInput, c: Config)
    requires input.onDisk.Some? && input.onDisk.value != s.config
    requires input.reloaded == Some(c)
    ensures var r := WallpaperCycle(s, input);
            r.state.config == c &&
            r.state.cache == UpdateList(Cache(s.cache.content, 1), c.search, input.fetch).state &&
            |r.effects| >= 1 && r.effects[0] == Request(SearchLink(c.search))
  {
    UpdateListRequest(Cache(s.cache.content, 1), c.search, input.fetch);
  }

  /** Without a change the configuration stays and a known page count is
      kept: the request asks for a page within [1, pages]. */
  lemma SameConfigKeepsPaging(s: AppState, input: CycleInput)
    requires input.onDisk == Some(s.config)
    requires 1 < s.cache.pages < U64Max
    ensures var r := WallpaperCycle(s, input);
            r.state.config == s.config && r.state.cache.pages == s.cache.pages &&
            |r.effects| >= 1 &&
            exists k :: 1 <= k <= s.cache.pages &&
                        r.effects[0] == Request(SearchLink(s.config.search) + "&page=" + Decimal(k))
  {
    UpdateListRequest(s.cache, s.config.search, input.fetch);
  }

  /** A cycle's effects are those of the refresh followed by those of the
      last part. It stops at the first step that fails and fails with that
      step's error: a failed check changes nothing, and a failed refresh
      keeps the outcome of the check. */
  lemma CycleSteps(s: AppState, input: CycleInput)
    ensures var r := WallpaperCycle(s, input);
            var checked := CheckConfig(s, input.onDisk, input.reloaded);
            var u := UpdateList(checked.state.cache, checked.state.config.search, input.fetch);
            var a := SetWallpaper(u.state.content, input);
            r.effects == (if checked.outcome.Fail? then []
                          else if u.outcome.Fail? then u.effects
                          else u.effects + a.effects) &&
            (checked.outcome.Fail? ==> r == Step(s, [], checked.outcome)) &&
            (checked.outcome == Pass && u.outcome.Fail? ==>
               r == Step(checked.state, u.effects, u.outcome)) &&
            (checked.outcome == Pass && u.outcome == Pass ==>
               r.state == AppState(checked.state.config, u.state) && r.outcome == a.outcome)
  {
  }

  /** Requests and warnings followed by the last part of a cycle: only
      the chosen image is downloaded, an apply follows the download of it,
      and with a non-empty content the chosen image is downloaded. */
  lemma RefreshThenSet(before: seq<Effect>, content: seq<string>, input: CycleInput)
    requires forall e :: e in before ==> e.Request? || e.Warn?
    ensures var es := before + SetWallpaper(content, input).effects;
            (ChangesWallpaper(es) ==> content != []) &&
            (forall e :: e in es && e.Download? ==> Some(e.url) == Choose(content, input.pickDraw)) &&
            (forall e :: e in es && e.Apply? ==>
               input.downloaded == Some(e.path) && |es| >= 2 && es[|es| - 2].Download?) &&
            (content != [] ==> Download(Choose(content, input.pickDraw).value) in es)
  {
    var a := SetWallpaper(content, input).effects;
    var es := before + a;
    forall e | e in es && (e.Download? || e.Apply?)
      ensures e in a
    {
    }
    forall e | e in es && e.Apply?
      ensures |es| >= 2 && es[|es| - 2].Download?
    {
      assert a == [a[0], e];
      assert es[|before|] == a[0];
    }
    if content != [] {
      assert es[|before|] == a[0];
    }
  }

  /** Download and apply happen only for an image chosen from the refreshed
      cache, and apply only right after a successful download of it. */
  lemma CycleDownloadsChosenImage(s: AppState, input: CycleInput)
    ensures var r := WallpaperCycle(s, input);
            var checked := CheckConfig(s, input.onDisk, input.reloaded);
            var u := UpdateList(checked.state.cache, checked.state.config.search, input.fetch);
            ChangesWallpaper(r.effects) ==>
              checked.outcome == Pass && u.outcome == Pass && r.state.cache.content != [] &&
              (forall e :: e in r.effects && e.Download? ==>
                 Some(e.url) == Choose(r.state.cache.content, input.pickDraw)) &&
              (forall e :: e in r.effects && e.Apply? ==>
                 input.downloaded == Some(e.path) && |r.effects| >= 2 &&
                 r.effects[|r.effects| - 2].Download?)
  {
    var checked := CheckConfig(s, input.onDisk, input.reloaded);
    var u := UpdateList(checked.state.cache, checked.state.config.search, input.fetch);
    CycleSteps(s, input);
    if checked.outcome == Pass && u.outcome == Pass {
      RefreshThenSet(u.effects, u.state.content, input);
    }
  }

  /** Whenever the change check and the refresh pass with a non-empty
      result, the chosen image is downloaded. */
  lemma CycleDownloadsWhenFound(s: AppState, input: CycleInput)
    ensures var r := WallpaperCycle(s, input);
            var checked := CheckConfig(s, input.onDisk, input.reloaded);
            var u := UpdateList(checked.state.cache, checked.state.config.search, input.fetch);
            checked.outcome == Pass && u.outcome == Pass && r.state.cache.content != [] ==>
              Download(Choose(r.state.cache.content, input.pickDraw).value) in r.effects
  {
    var checked := CheckConfig(s, input.onDisk, input.reloaded);
    var u := UpdateList(checked.state.cache, checked.state.config.search, input.fetch);
    CycleSteps(s, input);
    if checked.outcome == Pass && u.outcome == Pass {
      RefreshThenSet(u.effects, u.state.content, input);
    }
  }

  /** An empty result set leaves the wallpaper alone: no download and no
      apply, and the cycle still succeeds once the refresh does. */
  lemma EmptyResultKeepsWallpaper(s: AppState, input: CycleInput)
    requires input.fetch.response.Some? && input.fetch.response.value.data == []
    ensures var r := WallpaperCycle(s, input);
            var checked := CheckConfig(s, input.onDisk, input.reloaded);
            var u := UpdateList(checked.state.cache, checked.state.config.search, input.fetch);
            !ChangesWallpaper(r.effects) &&
            (checked.outcome == Pass && u.outcome == Pass ==> r.outcome == Pass)
  {
    CycleDownloadsChosenImage(s, input);
  }

  /** Two cycles with an unchanged configuration, starting from a fresh
      cache: the first asks without a page, learns last_page 5, keeps both
      paths and sets one of them; the second asks for a page in [1, 5]. */
  lemma TwoCycles(s: AppState, first: CycleInput, second: CycleInput)
    requires s.cache.pages == 1
    requires first.onDisk == Some(s.config) && second.onDisk == Some(s.config)
    requires first.fetch.response == Some(Response([Some("a.jpg"), Some("b.jpg")], Some(5)))
    requires first.downloaded.Some? && first.applied
    ensures var r := WallpaperCycle(s, first);
            r.outcome == Pass && r.state == AppState(s.config, Cache(["a.jpg", "b.jpg"], 5)) &&
            r.effects[0] == Request(SearchLink(s.config.search)) &&
            (Download("a.jpg") in r.effects || Download("b.jpg") in r.effects) &&
            Apply(first.downloaded.value) in r.effects &&
            var r2 := WallpaperCycle(r.state, second);
            exists k :: 1 <= k <= 5 &&
                        r2.effects[0] == Request(SearchLink(s.config.search) + "&page=" + Decimal(k))
  {
    var r := WallpaperCycle(s, first);
    var u := UpdateList(s.cache, s.config.search, first.fetch);
    UpdateListRequest(s.cache, s.config.search, first.fetch);
    assert u.state == Cache(["a.jpg", "b.jpg"], 5);
    var a := SetWallpaper(u.state.content, first);
    assert r.effects == u.effects + a.effects;
    assert a.effects[1] == Apply(first.downloaded.value);
    assert r.effects[|u.effects|] == a.effects[0] && r.effects[|u.effects| + 1] == a.effects[1];
    SameConfigKeepsPaging(r.state, second);
  }
}
