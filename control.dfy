/**
 * The control loop as a function of the messages it receives, in arrival
 * order, and of what the outside world answers during each
 * ChangeWallpaper cycle. The loop stops at Quit and at the first failed
 * cycle; when the messages run out it is still waiting for the next one.
 */
module Control {
  import opened Wrappers
  import opened SearchUrl
  import opened Cycle

  datatype Message = ChangeWallpaper | OpenConfig | Quit

  /** Waiting: blocked on the channel. Returned(Pass): run returned Ok.
      Returned(Fail(f)): run ended with an error or a panic. */
  datatype Status = Waiting | Returned(outcome: Outcome)

  datatype Trace = Trace(state: AppState, effects: seq<Effect>, status: Status)

  /** A trace preceded by some earlier effects. */
  function Prepend(effects: seq<Effect>, t: Trace): (r: Trace)
    ensures r.state == t.state && r.status == t.status
    ensures |r.effects| == |effects| + |t.effects|
  {
    Trace(t.state, effects + t.effects, t.status)
  }

  lemma PrependPrepend(a: seq<Effect>, b: seq<Effect>, t: Trace)
    ensures Prepend(a, Prepend(b, t)) == Prepend(a + b, t)
  {
    assert a + (b + t.effects) == (a + b) + t.effects;
  }

  /** The handling of one message: Waiting when the loop goes on to the
      next one. ChangeWallpaper runs a cycle, OpenConfig only opens the
      editor, Quit breaks out of the loop with Ok. */
  function Handle(s: AppState, message: Message, input: CycleInput): Trace
  {
    match message
    case Quit => Trace(s, [], Returned(Pass))
    case OpenConfig => Trace(s, [OpenEditor], Waiting)
    case ChangeWallpaper =>
      var c := WallpaperCycle(s, input);
      Trace(c.state, c.effects, if c.outcome.Fail? then Returned(c.outcome) else Waiting)
  }

  /** The message loop; inputs[i] is what the world answers if messages[i]
      is ChangeWallpaper, and is ignored otherwise. */
  function Loop(s: AppState, messages: seq<Message>, inputs: seq<CycleInput>): Trace
    requires |inputs| == |messages|
    decreases |messages|
  {
    if messages == [] then Trace(s, [], Waiting)
    else
      var next := Handle(s, messages[0], inputs[0]);
      if next.status == Waiting then Prepend(next.effects, Loop(next.state, messages[1..], inputs[1..]))
      else next
  }

  /** run: one refresh of the cache before the loop, then the loop. */
  function Run(s: AppState, first: Fetch, messages: seq<Message>, inputs: seq<CycleInput>): Trace
    requires |inputs| == |messages|
  {
    var u := UpdateList(s.cache, s.config.search, first);
    var s1 := AppState(s.config, u.state);
    if u.outcome.Fail? then Trace(s1, u.effects, Returned(u.outcome))
    else Prepend(u.effects, Loop(s1, messages, inputs))
  }

  /** Messages are handled one at a time in arrival order: running the loop
      on two batches is running it on the first and, if it is still
      waiting, continuing from where it stopped; once it has returned,
      later messages change nothing. */
  lemma {:induction false} LoopAppend(s: AppState, m1: seq<Message>, i1: seq<CycleInput>,
                                      m2: seq<Message>, i2: seq<CycleInput>)
    requires |i1| == |m1| && |i2| == |m2|
    ensures var t := Loop(s, m1, i1);
            Loop(s, m1 + m2, i1 + i2) ==
              if t.status == Waiting then Prepend(t.effects, Loop(t.state, m2, i2)) else t
    decreases |m1|
  {
    if m1 == [] {
      assert m1 + m2 == m2 && i1 + i2 == i2;
    } else {
      var m, i := m1 + m2, i1 + i2;
      assert m[0] == m1[0] && i[0] == i1[0];
      assert m[1..] == m1[1..] + m2 && i[1..] == i1[1..] + i2;
      var next := Handle(s, m1[0], i1[0]);
      LoopUnfold(s, m, i);
      LoopUnfold(s, m1, i1);
      if next.status == Waiting {
        var rest := Loop(next.state, m1[1..], i1[1..]);
        LoopAppend(next.state, m1[1..], i1[1..], m2, i2);
        assert Loop(s, m1, i1) == Prepend(next.effects, rest);
        if rest.status == Waiting {
          PrependPrepend(next.effects, rest.effects, Loop(rest.state, m2, i2));
        }
      }
    }
  }

  /** One step of the loop: the first message, then the rest while waiting. */
  lemma LoopUnfold(s: AppState, messages: seq<Message>, inputs: seq<CycleInput>)
    requires |inputs| == |messages| && messages != []
    ensures var next := Handle(s, messages[0], inputs[0]);
            Loop(s, messages, inputs) ==
              if next.status == Waiting
              then Prepend(next.effects, Loop(next.state, messages[1..], inputs[1..]))
              else next
  {
  }

  /** Nothing after a Quit is handled, and the loop does not wait past it. */
  lemma QuitEndsLoop(s: AppState, messages: seq<Message>, inputs: seq<CycleInput>, q: nat)
    requires |inputs| == |messages| && q < |messages| && messages[q] == Quit
    ensures Loop(s, messages, inputs) == Loop(s, messages[..q + 1], inputs[..q + 1])
    ensures Loop(s, messages, inputs).status.Returned?
  {
    assert messages == messages[..q + 1] + messages[q + 1..];
    assert inputs == inputs[..q + 1] + inputs[q + 1..];
    QuitStops(s, messages[..q + 1], inputs[..q + 1]);
    LoopAppend(s, messages[..q + 1], inputs[..q + 1], messages[q + 1..], inputs[q + 1..]);
  }

  /** A batch that ends in Quit leaves the loop returned. */
  lemma {:induction false} QuitStops(s: AppState, messages: seq<Message>, inputs: seq<CycleInput>)
    requires |inputs| == |messages| && messages != [] && messages[|messages| - 1] == Quit
    ensures Loop(s, messages, inputs).status.Returned?
    decreases |messages|
  {
    var next := Handle(s, messages[0], inputs[0]);
    if next.status == Waiting {
      QuitStops(next.state, messages[1..], inputs[1..]);
    }
  }

  /** run returns Ok only by way of a Quit message. */
  lemma {:induction false} OkNeedsQuit(s: AppState, messages: seq<Message>, inputs: seq<CycleInput>)
    requires |inputs| == |messages|
    requires Loop(s, messages, inputs).status == Returned(Pass)
    ensures Quit in messages
    decreases |messages|
  {
    var next := Handle(s, messages[0], inputs[0]);
    if next.status == Waiting {
      OkNeedsQuit(next.state, messages[1..], inputs[1..]);
    }
  }

  /** OpenConfig touches neither the configuration nor the cache: a run of
      OpenConfig messages only opens the editor, once per message. */
  lemma {:induction false} OpenConfigKeepsState(s: AppState, messages: seq<Message>, inputs: seq<CycleInput>)
    requires |inputs| == |messages|
    requires forall i :: 0 <= i < |messages| ==> messages[i] == OpenConfig
    ensures Loop(s, messages, inputs) == Trace(s, seq(|messages|, _ => OpenEditor), Waiting)
    decreases |messages|
  {
    if messages != [] {
      OpenConfigKeepsState(s, messages[1..], inputs[1..]);
    }
  }

  /** Every Apply comes right after a Download. */
  predicate DownloadBeforeApply(effects: seq<Effect>)
  {
    forall j :: 0 <= j < |effects| && effects[j].Apply? ==> 0 < j && effects[j - 1].Download?
  }

  lemma ConcatDownloadBeforeApply(a: seq<Effect>, b: seq<Effect>)
    requires DownloadBeforeApply(a) && DownloadBeforeApply(b)
    ensures DownloadBeforeApply(a + b)
  {
    forall j | 0 <= j < |a + b| && (a + b)[j].Apply?
      ensures 0 < j && (a + b)[j - 1].Download?
    {
      if j >= |a| {
        assert (a + b)[j] == b[j - |a|];
      } else {
        assert (a + b)[j] == a[j];
      }
    }
  }

  lemma HandleDownloadBeforeApply(s: AppState, message: Message, input: CycleInput)
    ensures DownloadBeforeApply(Handle(s, message, input).effects)
  {
    if message == ChangeWallpaper {
      CycleDownloadsChosenImage(s, input);
    }
  }

  /** Over the whole loop, the wallpaper is only ever set to a file that
      was downloaded just before. */
  lemma {:induction false} LoopDownloadBeforeApply(s: AppState, messages: seq<Message>, inputs: seq<CycleInput>)
    requires |inputs| == |messages|
    ensures DownloadBeforeApply(Loop(s, messages, inputs).effects)
    decreases |messages|
  {
    if messages != [] {
      var next := Handle(s, messages[0], inputs[0]);
      HandleDownloadBeforeApply(s, messages[0], inputs[0]);
      if next.status == Waiting {
        LoopDownloadBeforeApply(next.state, messages[1..], inputs[1..]);
        ConcatDownloadBeforeApply(next.effects, Loop(next.state, messages[1..], inputs[1..]).effects);
      }
    }
  }

  /** A message whose handling returns ends the loop: whatever messages
      follow it are never handled. */
  lemma ReturnEndsLoop(s: AppState, messages: seq<Message>, inputs: seq<CycleInput>, j: nat)
    requires |inputs| == |messages| && j < |messages|
    requires Loop(s, messages[..j], inputs[..j]).status == Waiting
    requires Handle(Loop(s, messages[..j], inputs[..j]).state, messages[j], inputs[j]).status.Returned?
    ensures var before := Loop(s, messages[..j], inputs[..j]);
            Loop(s, messages, inputs) == Prepend(before.effects, Handle(before.state, messages[j], inputs[j]))
  {
    var before := Loop(s, messages[..j], inputs[..j]);
    assert messages == messages[..j] + messages[j..];
    assert inputs == inputs[..j] + inputs[j..];
    LoopAppend(s, messages[..j], inputs[..j], messages[j..], inputs[j..]);
    assert messages[j..][0] == messages[j] && inputs[j..][0] == inputs[j];
    LoopUnfold(before.state, messages[j..], inputs[j..]);
  }

  /** A failed cycle ends the loop, and run returns that cycle's error. */
  lemma CycleFailureEndsLoop(s: AppState, messages: seq<Message>, inputs: seq<CycleInput>, j: nat)
    requires |inputs| == |messages| && j < |messages| && messages[j] == ChangeWallpaper
    requires Loop(s, messages[..j], inputs[..j]).status == Waiting
    requires WallpaperCycle(Loop(s, messages[..j], inputs[..j]).state, inputs[j]).outcome.Fail?
    ensures var before := Loop(s, messages[..j], inputs[..j]);
            var c := WallpaperCycle(before.state, inputs[j]);
            Loop(s, messages, inputs) == Trace(c.state, before.effects + c.effects, Returned(c.outcome))
  {
    ReturnEndsLoop(s, messages, inputs, j);
  }

  /** A passing cycle keeps the loop waiting: the next message is handled
      from the cycle's new configuration and cache. */
  lemma PassedCycleContinuesLoop(s: AppState, messages: seq<Message>, inputs: seq<CycleInput>, j: nat)
    requires |inputs| == |messages| && j < |messages| && messages[j] == ChangeWallpaper
    requires Loop(s, messages[..j], inputs[..j]).status == Waiting
    requires WallpaperCycle(Loop(s, messages[..j], inputs[..j]).state, inputs[j]).outcome == Pass
    ensures var before := Loop(s, messages[..j], inputs[..j]);
            var c := WallpaperCycle(before.state, inputs[j]);
            Loop(s, messages, inputs) ==
              Prepend(before.effects + c.effects, Loop(c.state, messages[j + 1..], inputs[j + 1..]))
  {
    var before := Loop(s, messages[..j], inputs[..j]);
    var c := WallpaperCycle(before.state, inputs[j]);
    assert messages == messages[..j] + messages[j..];
    assert inputs == inputs[..j] + inputs[j..];
    LoopAppend(s, messages[..j], inputs[..j], messages[j..], inputs[j..]);
    assert messages[j..][0] == messages[j] && inputs[j..][0] == inputs[j];
    assert messages[j..][1..] == messages[j + 1..] && inputs[j..][1..] == inputs[j + 1..];
    LoopUnfold(before.state, messages[j..], inputs[j..]);
    PrependPrepend(before.effects, c.effects, Loop(c.state, messages[j + 1..], inputs[j + 1..]));
  }

  /** Two ChangeWallpaper messages from a fresh cache, through the loop:
      the second cycle runs on the state the first one left, so once the
      first response has told the page count, the second request asks for
      a page. */
  lemma LoopTwoCycles(s: AppState, first: CycleInput, second: CycleInput)
    requires s.cache.pages == 1
    requires first.onDisk == Some(s.config) && second.onDisk == Some(s.config)
    requires first.fetch.response == Some(Response([Some("a.jpg"), Some("b.jpg")], Some(5)))
    requires first.downloaded.Some? && first.applied
    ensures var r := WallpaperCycle(s, first);
            var r2 := WallpaperCycle(r.state, second);
            var t := Loop(s, [ChangeWallpaper, ChangeWallpaper], [first, second]);
            t == Trace(r2.state, r.effects + r2.effects,
                       if r2.outcome.Fail? then Returned(r2.outcome) else Waiting) &&
            r.effects[0] == Request(SearchLink(s.config.search)) &&
            exists k :: 1 <= k <= 5 &&
                        t.effects[|r.effects|] == Request(SearchLink(s.config.search) + "&page=" + Decimal(k))
  {
    var messages := [ChangeWallpaper, ChangeWallpaper];
    var inputs := [first, second];
    TwoCycles(s, first, second);
    var r := WallpaperCycle(s, first);
    var r2 := WallpaperCycle(r.state, second);
    assert messages[..0] == [] && inputs[..0] == [];
    PassedCycleContinuesLoop(s, messages, inputs, 0);
    assert messages[1..] == [ChangeWallpaper] && inputs[1..] == [second];
    LoopUnfold(r.state, [ChangeWallpaper], [second]);
    assert [ChangeWallpaper][1..] == [] && [second][1..] == [];
    assert r.effects + r2.effects + [] == r.effects + r2.effects;
    var t := Loop(s, messages, inputs);
    assert t.effects[|r.effects|] == r2.effects[0];
  }

  /** The same holds for run as a whole: the first refresh only requests
      and warns. */
  lemma RunDownloadBeforeApply(s: AppState, first: Fetch, messages: seq<Message>, inputs: seq<CycleInput>)
    requires |inputs| == |messages|
    ensures DownloadBeforeApply(Run(s, first, messages, inputs).effects)
  {
    var u := UpdateList(s.cache, s.config.search, first);
    assert DownloadBeforeApply(u.effects) by {
      forall j | 0 <= j < |u.effects|
        ensures !u.effects[j].Apply?
      {
        assert u.effects[j] in u.effects;
      }
    }
    if u.outcome.Pass? {
      var s1 := AppState(s.config, u.state);
      LoopDownloadBeforeApply(s1, messages, inputs);
      ConcatDownloadBeforeApply(u.effects, Loop(s1, messages, inputs).effects);
    }
  }

  /** A Quit reached while the loop is still waiting ends it with Ok, and
      with the state and effects of the messages before it. */
  lemma QuitGivesOk(s: AppState, messages: seq<Message>, inputs: seq<CycleInput>, q: nat)
    requires |inputs| == |messages| && q < |messages| && messages[q] == Quit
    requires Loop(s, messages[..q], inputs[..q]).status == Waiting
    ensures var before := Loop(s, messages[..q], inputs[..q]);
            Loop(s, messages, inputs) == Trace(before.state, before.effects, Returned(Pass))
  {
    ReturnEndsLoop(s, messages, inputs, q);
    assert Loop(s, messages[..q], inputs[..q]).effects + [] == Loop(s, messages[..q], inputs[..q]).effects;
  }

  /** run ends with the first refresh's error when that refresh fails, and
      then handles no message at all. */
  lemma FailedFirstRefreshEndsRun(s: AppState, first: Fetch, messages: seq<Message>, inputs: seq<CycleInput>)
    requires |inputs| == |messages|
    requires UpdateList(s.cache, s.config.search, first).outcome.Fail?
    ensures var u := UpdateList(s.cache, s.config.search, first);
            Run(s, first, messages, inputs) == Trace(s, u.effects, Returned(u.outcome))
  {
  }

  /** A passing first refresh is followed by the loop over every message,
      from the refreshed cache. */
  lemma PassedFirstRefreshEntersLoop(s: AppState, first: Fetch, messages: seq<Message>, inputs: seq<CycleInput>)
    requires |inputs| == |messages|
    requires UpdateList(s.cache, s.config.search, first).outcome == Pass
    ensures var u := UpdateList(s.cache, s.config.search, first);
            var t := Loop(AppState(s.config, u.state), messages, inputs);
            Run(s, first, messages, inputs) == Trace(t.state, u.effects + t.effects, t.status)
  {
  }
}
