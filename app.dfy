/**
 * The application object: the configuration in use and the result cache,
 * updated in place by the refresh, the ChangeWallpaper cycle and the
 * message loop. Each method is proved to do what the functions of Cycle
 * and Control say it does.
 */
module App {
  import opened Wrappers
  import opened Config
  import opened SearchUrl
  import opened Cycle
  import opened Control

  /** The result cache as the application holds it. */
  class List {
    var content: seq<string>
    var pages: u64

    /** The page count starts at the sentinel 1 and the cache empty. */
    constructor ()
      ensures content == [] && pages == 1
    {
      content := [];
      pages := 1;
    }

    function Value(): Cache
      reads this
    {
      Cache(content, pages)
    }
  }

  class App {
    var config: Config
    const list: List

    /** The application built around an already loaded configuration. */
    constructor (config: Config)
      ensures this.config == config && fresh(list)
      ensures list.Value() == InitialCache()
    {
      this.config := config;
      list := new List();
    }

    function State(): AppState
      reads this, list
    {
      AppState(config, list.Value())
    }

    /** The parameter macro applied to the eleven Search strings in turn. */
    static method BuildSearchLink(search: Search) returns (link: string)
      ensures link == SearchLink(search)
    {
      link := Base;
      link := Parameter(link, "q", search.query);
      link := Parameter(link, "categories", search.categories);
      link := Parameter(link, "purity", search.purity);
      link := Parameter(link, "sorting", search.sorting);
      link := Parameter(link, "order", search.order);
      link := Parameter(link, "topRange", search.topRange);
      link := Parameter(link, "atleast", search.atLeast);
      link := Parameter(link, "resolutions", search.resolutions);
      link := Parameter(link, "ratios", search.ratios);
      link := Parameter(link, "colors", search.colors);
      link := Parameter(link, "apikey", search.apiKey);
      SearchLinkUnrolled(search);
    }

    /** Builds the request URL, fetches one page and refreshes the cache. */
    method UpdateList(fetch: Fetch) returns (effects: seq<Effect>, outcome: Outcome)
      modifies list
      ensures var r := Cycle.UpdateList(old(list.Value()), config.search, fetch);
              list.Value() == r.state && effects == r.effects && outcome == r.outcome
    {
      var link := BuildSearchLink(config.search);

      if list.pages != 1 {
        if list.pages == 0 || list.pages == U64Max {
          return [], Fail(EmptyPageRange);
        }
        var page := 1 + fetch.pageDraw % list.pages;
        link := link + "&page=" + Decimal(page);
      }

      effects := [Request(link)];
      if fetch.response.None? {
        return effects, Fail(RequestFailed);
      }
      var parsed := fetch.response.value;
      var images := Images(parsed.data);
      if images.None? {
        return effects, Fail(PathMissing);
      }
      if parsed.data == [] {
        effects := effects + [Warn(NothingFound)];
      }
      if list.pages == 1 {
        if parsed.lastPage.None? {
          return effects, Fail(LastPageMissing);
        }
        list.pages := parsed.lastPage.value;
      }
      list.content := images.value;
      outcome := Pass;
    }

    /** The change check of a cycle: re-read the file and, when it differs
        from the configuration in use, load it again and reset the page
        count to 1. */
    method ReloadIfChanged(onDisk: Option<Config>, reloaded: Option<Config>) returns (outcome: Outcome)
      modifies this, list
      ensures var r := CheckConfig(old(State()), onDisk, reloaded);
              State() == r.state && outcome == r.outcome
    {
      var changed := ConfigChanged(config, onDisk);
      if changed.None? {
        return Fail(ConfigUnreadable);
      }
      if changed.value {
        if reloaded.None? {
          return Fail(ConfigReloadFailed);
        }
        config := reloaded.value;
        list.pages := 1;
      }
      outcome := Pass;
    }

    /** The end of a cycle: pick an image from the cache, download it and
        set it as the wallpaper; with an empty cache do nothing. */
    method SetWallpaper(input: CycleInput) returns (effects: seq<Effect>, outcome: Outcome)
      ensures Action(effects, outcome) == Cycle.SetWallpaper(list.content, input)
    {
      effects, outcome := [], Pass;
      var chosen := Choose(list.content, input.pickDraw);
      if chosen.Some? {
        effects := effects + [Download(chosen.value)];
        if input.downloaded.None? {
          return effects, Fail(DownloadFailed);
        }
        var path := input.downloaded.value;
        effects := effects + [Apply(path)];
        if !input.applied {
          return effects, Fail(ApplyFailed);
        }
      }
    }

    /** change_wallpaper: the change check, the refresh, then the download
        and apply of a chosen image. */
    method ChangeWallpaper(input: CycleInput) returns (effects: seq<Effect>, outcome: Outcome)
      modifies this, list
      ensures var r := WallpaperCycle(old(State()), input);
              State() == r.state && effects == r.effects && outcome == r.outcome
    {
      outcome := ReloadIfChanged(input.onDisk, input.reloaded);
      if outcome.Fail? {
        return [], outcome;
      }
      effects, outcome := UpdateList(input.fetch);
      if outcome.Fail? {
        return;
      }
      var more;
      more, outcome := SetWallpaper(input);
      effects := effects + more;
    }

    /** One arm of the message match: ChangeWallpaper runs a cycle,
        OpenConfig only opens the editor, Quit stops the loop. */
    method HandleMessage(message: Message, input: CycleInput) returns (effects: seq<Effect>, status: Status)
      modifies this, list
      ensures var t := Handle(old(State()), message, input);
              State() == t.state && effects == t.effects && status == t.status
    {
      match message {
        case ChangeWallpaper =>
          var outcome;
          effects, outcome := ChangeWallpaper(input);
          status := if outcome.Fail? then Returned(outcome) else Waiting;
        case OpenConfig =>
          effects, status := [OpenEditor], Waiting;
        case Quit =>
          effects, status := [], Returned(Pass);
      }
    }

    /** The 'main loop: handle the messages in order until Quit or the
        first failure. */
    method MainLoop(messages: seq<Message>, inputs: seq<CycleInput>)
      returns (effects: seq<Effect>, status: Status)
      requires |inputs| == |messages|
      modifies this, list
      ensures Loop(old(State()), messages, inputs) == Trace(State(), effects, status)
    {
      ghost var goal := Loop(State(), messages, inputs);
      effects := [];
      var i := 0;
      while i < |messages|
        invariant 0 <= i <= |messages|
        invariant goal == Prepend(effects, Loop(State(), messages[i..], inputs[i..]))
      {
        LoopUnfold(State(), messages[i..], inputs[i..]);
        assert messages[i..][1..] == messages[i + 1..] && inputs[i..][1..] == inputs[i + 1..];
        var handled;
        handled, status := HandleMessage(messages[i], inputs[i]);
        PrependPrepend(effects, handled, Loop(State(), messages[i + 1..], inputs[i + 1..]));
        effects := effects + handled;
        if status.Returned? {
          return;
        }
        i := i + 1;
      }
      status := Waiting;
    }

    /** run: refresh the cache once, then enter the message loop. */
    method Run(first: Fetch, messages: seq<Message>, inputs: seq<CycleInput>)
      returns (effects: seq<Effect>, status: Status)
      requires |inputs| == |messages|
      modifies this, list
      ensures var t := Control.Run(old(State()), first, messages, inputs);
              State() == t.state && effects == t.effects && status == t.status
    {
      var outcome, looped;
      effects, outcome := UpdateList(first);
      if outcome.Fail? {
        return effects, Returned(outcome);
      }
      looped, status := MainLoop(messages, inputs);
      effects := effects + looped;
    }
  }
}
