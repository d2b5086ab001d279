# stenbug: the wallpaper cycle, modelled in Dafny

stenbug is a Windows tray agent. It periodically sets the desktop wallpaper
to a random image found through the wallhaven.cc search API. This project
models its core and proves properties of the model:

- **the search URL** (module `SearchUrl`): the fixed endpoint
  `https://wallhaven.cc/api/v1/search?`, then `&name=value` for every
  non-empty string of the `Search` configuration in a fixed order, then
  `&page=k` once the page count is known;
- **the paginated result cache** (module `Cycle`, class `App.List`): the
  image paths of the last page fetched, and the total page count, where 1
  means "not yet known"; `update_list` refreshes the cache and `choose`
  picks an image from it;
- **the message loop** (modules `Cycle` and `Control`, class `App.App`):
  - `ChangeWallpaper` runs the change check and reload, the refresh, the
    choice, then the download and apply;
  - `OpenConfig` only opens the editor;
  - `Quit` ends the loop with `Ok`;
  - any error or panic in a cycle ends `run`;
- **the configuration records** (module `Config`): `Config`, `System` and
  `Search`, with their structural equality and their defaults.

Layout:

- `wrappers.dfy`: `Option`.
- `config.dfy`: the configuration datatypes and their defaults.
- `search_url.dfy`: the parameter macro and the decimal page suffix.
- `cycle.dfy`: the refresh, the choice, the change check and one cycle, as
  pure functions of the old state and of what the outside world answers.
- `control.dfy`: the loop as a function of the message sequence.
- `app.dfy`: the application object as classes whose fields the methods
  update in place. Each method is proved to produce exactly the new state,
  effects and outcome that the functions of `Cycle` and `Control` give.

Outside input appears as parameters:

- the parsed search response (`Response`);
- the configuration file as read by the change check and as read again by
  the reload (two reads, as in the application);
- the path the download saved to, or its failure;
- whether setting the wallpaper succeeded;
- the random numbers, as natural-number draws. The page is
  `1 + draw % pages` and the image is `content[draw % |content|]`.
  "Reachable" lemmas show that every value the random generator could
  return comes from some draw.

What the application does to the outside world is recorded as a list of
effects: `Request(url)`, `Warn(message)`, `Download(url)`, `Apply(path)` and
`OpenEditor`.

The page count is a `u64`. For `pages == 0` the range `1..1` is empty and
`gen_range` panics. For `pages == u64::MAX` the bound `pages + 1` panics
with an overflow in a debug build; in a release build it wraps to 0 and
`gen_range` panics on the empty range `1..0`. The other panics are:

- a `data` element without a string `path`;
- a missing `last_page`;
- the `unwrap`s inside `download` and `apply`;
- the `unwrap` of the base directory in `config_path!` (src/app.rs:58), on
  the change check's read (src/app.rs:187) and on the reload
  (src/app.rs:238). These fold into `ConfigUnreadable` and
  `ConfigReloadFailed`.

The model turns each panic into a failure that ends the cycle and `run`,
just like a returned error.

## Model

The functions that define the behaviour have no row: `Handle`, `Loop`,
`Run`, `SearchLink` and the defaults carry no contract, and the `ensures`
of `Parameter` and `RequestLink` only restate their bodies. `Control.Handle` is one arm of the message match
(src/app.rs:233-261), `Control.Loop` is the `'main` loop
(src/app.rs:232-262) and `Control.Run` is `run` (src/app.rs:197-264).
`SearchUrl.Parameter` is the `parameter!` macro (src/app.rs:48-54),
`SearchUrl.SearchLink` is the eleven macro uses (src/app.rs:117-129) and
`SearchUrl.RequestLink` adds the page suffix (src/app.rs:133-138).
`Config.DefaultSystem`, `Config.DefaultSearch` and `Config.DefaultConfig`
are the `Default` implementations (src/config.rs:9, 20-26, 43-59). The
rows below state what is proved about them.

| member | source | states |
|---|---|---|
| Config.DefaultValues | src/config.rs:20-58 | The default interval is 3600 seconds. `Config::default()` pairs the two defaults. A default search string is empty exactly for resolutions, ratios, colors and the API key. |
| Config.SearchEqualIffValuesEqual | src/config.rs:28-41 | Two `Search` records are equal if and only if their eleven strings are pairwise equal. |
| Config.ConfigEqualIff | src/config.rs:9-41 | Two configurations are equal if and only if their durations are equal and all eleven search strings are pairwise equal. |
| Config.DifferInOneFieldUnequal | src/config.rs:28-41 | Configurations whose search strings differ at any one position are unequal. |
| SearchUrl.Fields | src/app.rs:119-129 | There are eleven (name, value) pairs in request order. The i-th pairs parameter name i with search string i. |
| SearchUrl.SearchLinkUnrolled | src/app.rs:117-129 | The search URL is the endpoint with the parameter macro applied to q, categories, purity, sorting, order, topRange, atleast, resolutions, ratios, colors and apikey, in that order. |
| SearchUrl.AppendAllIsRender | src/app.rs:48-54 | Applying the macro to a list of fields appends exactly `&name=value` for each non-empty field, in order. Empty fields contribute nothing. |
| SearchUrl.SearchLinkShape | src/app.rs:117-129 | The search URL is the endpoint followed by the pairs of the non-empty search strings, in the fixed order. |
| SearchUrl.AllEmptyIsBase | src/app.rs:117-129 | With every search string empty, the search URL is exactly the endpoint. |
| SearchUrl.OneFieldOnePair | src/app.rs:117-129 | With exactly one search string set, the URL is the endpoint plus that one `&name=value`. |
| SearchUrl.OneFieldAppended | src/app.rs:48-54 | Over any link and fields, a single non-empty field appends exactly its own pair. |
| SearchUrl.DefaultNonEmpty | src/config.rs:43-58 | The non-empty fields of the default search are exactly its first seven, in order. |
| SearchUrl.DefaultFields | src/config.rs:43-52 | The first seven fields of the default search pair q, categories, purity, sorting, order, topRange and atleast with their default values. |
| SearchUrl.DefaultSearchLink | src/app.rs:117-129 | The default search gives exactly seven parameters, and the URL is spelled out, values and all. |
| SearchUrl.Decimal | src/app.rs:137 | The page number is written as one or more decimal digits, with no leading zero. |
| SearchUrl.DecimalRoundTrip | src/app.rs:137 | Reading the decimal text back gives the page number. |
| SearchUrl.PageSuffixReadsBack | src/app.rs:133-138 | The requested URL is the search URL, then `&page=`, then the digits of k, which read back as k. |
| Cycle.InitialCache | src/app.rs:101-104 | The cache starts with no content and the page count at the sentinel 1. |
| Cycle.PageToRequest | src/app.rs:133-135 | There is no page parameter if and only if pages is 1. The range is empty (a panic) if and only if pages is 0 or u64::MAX. Otherwise the page is in [1, pages]. |
| Cycle.EveryPageReachable | src/app.rs:134-135 | Every page in [1, pages] is requested for some draw. |
| Cycle.Images | src/app.rs:146-151 | The result is None if and only if some `data` element lacks a path. Otherwise the paths come in response order, one per element. |
| Cycle.UpdateList | src/app.rs:116-166 | On every failure the cache is unchanged. An empty page range gives no effects. Otherwise the effects are exactly one request, for the chosen page's URL, followed by the warning exactly when the response arrived, every element has a path and `data` is empty. Success holds if and only if [the page range is non-empty, the response arrived, every element has a path, and last_page is present when pages was 1]. On success the content is the response's paths in order and pages is last_page if it was 1, unchanged otherwise. |
| Cycle.UpdateListRequest | src/app.rs:117-142 | For a page count other than 0 and u64::MAX, the first effect is the request. It is the bare search URL when pages is 1, and otherwise the search URL plus `&page=k` for some k in [1, pages]. |
| Cycle.EmptyResponseWarns | src/app.rs:144-165 | With a valid page range and last_page present when pages is 1, an empty `data` array gives the warning and still succeeds, leaving the content empty. |
| Cycle.Choose | src/app.rs:109-114 | The result is None if and only if the content is empty. Otherwise it is an element of the content. Only the content is read. |
| Cycle.EveryImageReachable | src/app.rs:109-114 | Every cached path is chosen for some draw. |
| Cycle.ConfigChanged | src/app.rs:186-195 | The result is None if and only if the file gives no configuration. Otherwise it is true if and only if the file's configuration differs from the one in use. |
| Cycle.ChangeDetection | src/app.rs:192-194 | An identical configuration is no change. A configuration differing in exactly one search string is a change. |
| Cycle.CheckConfig | src/app.rs:236-243 | The check passes if and only if the file gives a configuration and, when that configuration differs from the one in use, the reload gives one too. An unchanged file leaves the state alone. A changed file replaces the configuration with the reloaded one and resets pages to 1, keeping the content. An unreadable file fails with ConfigUnreadable, and a changed file whose reload gives nothing fails with ConfigReloadFailed. There are no effects. |
| Cycle.SetWallpaper | src/app.rs:245-248 | There are no effects if and only if the content is empty. Otherwise the chosen image is downloaded first. A failed download stops there. A successful download is followed by exactly one apply, of the saved path. The outcome is Pass, DownloadFailed or ApplyFailed, each exactly in its case. |
| Cycle.WallpaperCycle | src/app.rs:234-249 | A cycle that fails before any effect leaves the state unchanged. |
| Cycle.ChangedConfigRequestsFirstPage | src/app.rs:236-244 | After a detected change, the configuration is the reloaded one. The cache is refreshed from pages 1, and the request carries no page parameter. |
| Cycle.SameConfigKeepsPaging | src/app.rs:236-244 | Without a change, the configuration and a known page count stay. The request asks for some page in [1, pages]. |
| Cycle.CycleSteps | src/app.rs:236-248 | A failed change check or reload ends the cycle with its error, no effects and the state unchanged. A failed refresh ends it with the refresh's error and effects, keeping the checked configuration and the old cache. Otherwise the effects are the refresh's followed by those of the download and apply, the state is the checked configuration with the refreshed cache, and the outcome is that of the download and apply. |
| Cycle.RefreshThenSet | src/app.rs:244-248 | After requests and warnings only, the last part of a cycle downloads only the chosen image. An apply uses the downloaded path and comes right after the download. With non-empty content the chosen image is downloaded. |
| Cycle.CycleDownloadsChosenImage | src/app.rs:244-248 | A download or apply happens only when the check and the refresh passed with non-empty content. Every download is the image chosen from the refreshed cache. Every apply uses the downloaded path and comes right after the download. |
| Cycle.CycleDownloadsWhenFound | src/app.rs:244-248 | When the check and the refresh pass with non-empty content, the chosen image is downloaded. |
| Cycle.EmptyResultKeepsWallpaper | src/app.rs:244-248 | An empty result set means no download and no apply. The cycle still passes when the check and the refresh do. |
| Cycle.TwoCycles | src/app.rs:232-249 | From pages 1, a response with data [a.jpg, b.jpg] and last_page 5 gives a request with no page parameter and a cache of both paths with pages 5. It downloads one of the two paths and applies the saved file. The next cycle with the same configuration asks for a page in [1, 5]. The second cycle is applied to the first one's state here; `Control.LoopTwoCycles` shows that the loop does the same. |
| Control.LoopAppend | src/app.rs:232-262 | Messages are handled in arrival order. Running two batches is running the first, then, if still waiting, the second from where the first left off. After a return, later messages change nothing. |
| Control.QuitEndsLoop | src/app.rs:259 | No message after a Quit is handled, and the loop has returned. |
| Control.QuitStops | src/app.rs:259 | A batch ending in Quit leaves the loop returned. |
| Control.QuitGivesOk | src/app.rs:259-264 | A Quit reached while the loop is still waiting ends it with Ok, keeping the state and effects of the messages before it. |
| Control.OkNeedsQuit | src/app.rs:232-264 | The loop returns Ok only if a Quit was received. |
| Control.OpenConfigKeepsState | src/app.rs:250-258 | OpenConfig messages leave the configuration and cache unchanged. They only open the editor, once each, and the loop keeps waiting. |
| Control.ReturnEndsLoop | src/app.rs:232-262 | When handling the j-th message returns, the loop's result is the effects so far followed by that handling. No later message is handled. |
| Control.PassedCycleContinuesLoop | src/app.rs:232-249 | A passing ChangeWallpaper cycle keeps the loop waiting: the loop's result is the effects so far, then the cycle's effects, then the loop over the remaining messages from the cycle's new configuration and cache. |
| Control.LoopTwoCycles | src/app.rs:232-249 | Two ChangeWallpaper messages through the loop (with the page request of src/app.rs:133-137 and the page count set at src/app.rs:158-161), from pages 1 with a first response of last_page 5: the loop's trace is the first cycle followed by the second run on the first one's state, the first request has no page parameter, and the second asks for a page in [1, 5]. |
| Control.CycleFailureEndsLoop | src/app.rs:236-247 | A failed cycle ends the loop with that cycle's error and state. The messages after it are never handled. |
| Control.HandleDownloadBeforeApply | src/app.rs:233-261 | Within the handling of any one message, every apply comes right after a download. |
| Control.LoopDownloadBeforeApply | src/app.rs:232-262 | Over any message sequence, every apply comes right after a download. |
| Control.RunDownloadBeforeApply | src/app.rs:197-264 | The same holds for `run`, including its first refresh. |
| Control.FailedFirstRefreshEndsRun | src/app.rs:197-198 | When the first refresh fails, `run` ends with its error and effects, the state unchanged and no message handled. |
| Control.PassedFirstRefreshEntersLoop | src/app.rs:197-262 | When the first refresh passes, `run` is its effects followed by the loop over every message from the refreshed cache. |
| App.List.constructor | src/app.rs:101-104 | The list starts empty with pages 1. |
| App.App.constructor | src/app.rs:96-105 | The application keeps the given configuration and a fresh list in its initial state. |
| App.App.BuildSearchLink | src/app.rs:117-129 | The eleven reassignments of `link` build exactly the search URL. |
| App.App.UpdateList | src/app.rs:116-166 | The in-place update of `pages` and `content`, the effects and the outcome are exactly those of `Cycle.UpdateList` on the old cache. |
| App.App.ReloadIfChanged | src/app.rs:236-243 | The new configuration, cache and outcome are exactly those of `Cycle.CheckConfig`. |
| App.App.SetWallpaper | src/app.rs:245-248 | The effects and the outcome are exactly those of `Cycle.SetWallpaper` on the current content. Nothing changes. |
| App.App.ChangeWallpaper | src/app.rs:234-249 | The new state, effects and outcome are exactly those of `Cycle.WallpaperCycle`. |
| App.App.HandleMessage | src/app.rs:233-261 | The new state, effects and status are exactly those of `Control.Handle`. |
| App.App.MainLoop | src/app.rs:232-262 | The loop's new state, effects and status are exactly those of `Control.Loop` over the message sequence. |
| App.App.Run | src/app.rs:197-264 | The new state, effects and status are exactly those of `Control.Run`: one refresh, then the loop unless that refresh failed. |

## Left out

- HTTP and JSON (src/app.rs:142-151, 159): the request and its parse are a
  parsed `Response`, or None when either failed. `Response.data` is the
  list of elements of `data`. A `data` value that is not an array gives no
  paths in the application, and the warning only when `is_empty` holds
  for it: `null`, `false`, zero, an empty string or an empty object. The model has no such value: it reads every non-array `data` as
  an empty array, which always warns.
- `Config::load`, TOML and file I/O (src/config.rs:62-68, src/app.rs:186-194):
  each read of the configuration file is an input `Option<Config>`.
- The startup in `App::new` (src/app.rs:69-94): the tray, the COM
  wallpaper object, the channel, and writing a default file when none
  exists. `App.App.constructor` takes the configuration already loaded.
- The download (src/app.rs:168-176) and `SetWallpaper` (src/app.rs:178-184)
  are foreign calls. Their results are inputs: a path or None for the
  download, and success or not for the apply. The panics inside them fold
  into `DownloadFailed` and `ApplyFailed`.
- The tray menu, `report_error`'s message box, and the panic and exit
  handling of `src/main.rs`: UI plumbing. A warning is only recorded as a
  `Warn` effect. `run` builds the tray label and its three menu items
  (src/app.rs:201-219) between the first refresh and the loop, and each
  `?` there can end `run` with an error before any message is handled;
  the model's `Control.Run` and `App.App.Run` go from the refresh straight
  to the loop and do not have that failure.
- The timer thread, the bounded channel, and the spawned editor process
  (src/app.rs:223-230, 253-257): concurrency. The loop takes the sequence
  of messages as received, and opening the editor is one `OpenEditor`
  effect.
- The `_ => {}` arm of the receive match (src/app.rs:260): `recv` fails
  only when all senders are gone, and the application keeps one itself.
- `thread_rng`: its output is a draw, as described above.
- `Duration`: a whole number of seconds.
- The `println!` debug output and the derived `PartialOrd`: nothing in the
  core uses them.
- The `config_path!` unwrap in the `OpenConfig` arm (src/app.rs:251): it
  panics only when the system reports no base directory. In the model,
  `OpenConfig` always succeeds.
- Cycle.WallpaperCycle: its own contract states only that an early failure
  changes nothing. What a cycle does, step by step and failure by failure,
  is stated by `Cycle.CycleSteps`, together with `Cycle.CheckConfig`,
  `Cycle.UpdateList` and `Cycle.SetWallpaper`.
