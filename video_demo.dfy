/**
  The video facade of the demo section (js/video-demo.js). A placeholder
  stands in for the embedded player until a click on the play button or on a
  timestamp link loads it; once loaded, timestamp links seek the player by
  rewriting its URL. The 300 ms timer that swaps the spinner for the player
  is an explicit event, `LoadTimer`, so that its one-way flag and the
  re-entrant load before it fires can be stated.
 */
module VideoDemo {
  import opened Js

  // ------------------------------------------------------------------
  // Player URLs
  // ------------------------------------------------------------------

  /** The `si` parameter every player URL carries. */
  const SiParam := "0TYIEgWdXn4C2aNk"
  const EmbedPrefix := "https://www.youtube-nocookie.com/embed/"
  /** A seek rewrites the player to this fixed URL, whatever the facade's
      `data-video-id` is. */
  const SeekBase := "https://www.youtube-nocookie.com/embed/DVsQg_OBTHs"
  const SeekVideoId := "DVsQg_OBTHs"

  /** The `startTime` argument of `loadVideo`: the default `0` (the play
      button passes none), or the `data-time` attribute of the clicked
      link, which is `null` when the link has none. */
  datatype StartTime = DefaultStart | LinkTime(attr: Option<string>)

  /** `startTime` is truthy: a link time that is present and non-empty
      (the number `0`, `null` and `''` are all falsy). */
  predicate StartGiven(startTime: StartTime)
  {
    startTime.LinkTime? && Truthy(startTime.attr)
  }

  /** The `URLSearchParams` of `loadVideo`, in insertion order. */
  function EmbedParams(startTime: StartTime): (params: seq<(string, string)>)
    ensures |params| >= 2
    ensures params[0] == ("si", SiParam)
    ensures params[|params| - 1] == ("autoplay", "1")
    ensures StartGiven(startTime) ==> params[1] == ("start", startTime.attr.value)
    ensures (exists i :: 0 <= i < |params| && params[i].0 == "start") <==> StartGiven(startTime)
    ensures !StartGiven(startTime) ==> params == [("si", SiParam), ("autoplay", "1")]
  {
    [("si", SiParam)]
    + (if StartGiven(startTime) then [("start", startTime.attr.value)] else [])
    + [("autoplay", "1")]
  }

  /** `name=value` pairs joined by `&` (percent-encoding left out). */
  function QueryString(params: seq<(string, string)>): (query: string)
    ensures query == "" <==> params == []
  {
    if params == [] then ""
    else if |params| == 1 then params[0].0 + "=" + params[0].1
    else params[0].0 + "=" + params[0].1 + "&" + QueryString(params[1..])
  }

  /** The query string of `loadVideo`, spelled out. */
  lemma EmbedQuery(startTime: StartTime)
    ensures QueryString(EmbedParams(startTime)) ==
            "si=" + SiParam + (if StartGiven(startTime) then "&start=" + startTime.attr.value else "") + "&autoplay=1"
  {
    var last := QueryString([("autoplay", "1")]);
    assert last == "autoplay=1";
    if StartGiven(startTime) {
      var t := startTime.attr.value;
      assert EmbedParams(startTime) == [("si", SiParam), ("start", t), ("autoplay", "1")];
      var mid := QueryString([("start", t), ("autoplay", "1")]);
      assert [("start", t), ("autoplay", "1")][1..] == [("autoplay", "1")];
      assert mid == "start=" + t + "&" + last;
      assert [("si", SiParam), ("start", t), ("autoplay", "1")][1..] == [("start", t), ("autoplay", "1")];
      assert QueryString(EmbedParams(startTime)) == "si=" + SiParam + "&" + mid;
    } else {
      assert [("si", SiParam), ("autoplay", "1")][1..] == [("autoplay", "1")];
      assert QueryString(EmbedParams(startTime)) == "si=" + SiParam + "&" + last;
    }
  }

  /** The `src` of the iframe `loadVideo` creates: the facade's video id
      (`null` when the attribute is missing), then `si`, the start time when
      one was given, and `autoplay`. */
  function EmbedUrl(videoId: Option<string>, startTime: StartTime): (url: string)
    ensures url == EmbedPrefix + ToText(videoId) + "?" +
                   ("si=" + SiParam + (if StartGiven(startTime) then "&start=" + startTime.attr.value else "") + "&autoplay=1")
  {
    EmbedQuery(startTime);
    EmbedPrefix + ToText(videoId) + "?" + QueryString(EmbedParams(startTime))
  }

  /** The `src` a timestamp click gives the loaded player: always the
      fixed video, with the link's `data-time` (`null` when missing) as the
      start. */
  function SeekUrl(time: Option<string>): (url: string)
    ensures |SeekBase| < |url| && url[..|SeekBase|] == SeekBase
    ensures time == None ==> url == SeekBase + "?si=" + SiParam + "&start=null&autoplay=1"
  {
    SeekBase + "?si=" + SiParam + "&start=" + ToText(time) + "&autoplay=1"
  }

  /** For the page's own video and a truthy link time, seeking the loaded
      player gives the URL a fresh load at that time would give. */
  lemma SeekMatchesEmbed(time: Option<string>)
    requires Truthy(time)
    ensures SeekUrl(time) == EmbedUrl(Some(SeekVideoId), LinkTime(time))
  {
    var t := time.value;
    assert EmbedParams(LinkTime(time)) == [("si", SiParam), ("start", t), ("autoplay", "1")];
    assert QueryString([("autoplay", "1")]) == "autoplay=1";
    assert QueryString([("start", t), ("autoplay", "1")]) == "start" + "=" + t + "&" + "autoplay=1";
    assert SeekBase == EmbedPrefix + SeekVideoId;
  }

  // ------------------------------------------------------------------
  // Facade state
  // ------------------------------------------------------------------

  /** What the facade element holds. */
  datatype Facade = Placeholder | Spinner | Player(src: string)

  /** The page as `init` finds it. */
  datatype VideoPage = VideoPage(
    hasFacade: bool,
    videoId: Option<string>,        // the facade's `data-video-id`
    linkTimes: seq<Option<string>>, // the `data-time` of each `.timestamp-link`
    hasPlayButton: bool,
    hasToggle: bool,                // `.timestamps-toggle`
    hasContainer: bool)             // `.video-timestamps`

  /** `init` attaches listeners only when the facade exists and there is
      at least one timestamp link. */
  predicate Wired(p: VideoPage)
  {
    p.hasFacade && |p.linkTimes| > 0
  }

  datatype VideoState = VideoState(
    facade: Facade,
    iframeSrc: Option<string>,  // `this.iframe`, by its `src`; None while `null`
    videoLoaded: bool,
    pending: seq<string>,       // iframes made by `loadVideo` whose timer has not fired, oldest first
    linkActive: seq<bool>,      // each timestamp link has the class `active`
    expanded: bool)             // the timestamps container has the class `expanded`

  /** The state before any event. */
  function Initial(linkActive: seq<bool>, expanded: bool): VideoState
  {
    VideoState(Placeholder, None, false, [], linkActive, expanded)
  }

  /** What every reachable state satisfies: `iframe` is set exactly when
      the video is loaded, and it is then the player in the facade; before
      that the facade is the placeholder until a load is pending, then the
      spinner. */
  ghost predicate Valid(p: VideoPage, s: VideoState)
  {
    && |s.linkActive| == |p.linkTimes|
    && (s.videoLoaded <==> s.iframeSrc.Some?)
    && (s.videoLoaded ==> s.facade == Player(s.iframeSrc.value))
    && (!s.videoLoaded ==> !s.facade.Player? && (s.facade == Placeholder <==> s.pending == []))
    && (s.pending != [] ==> Wired(p))
  }

  lemma InitialIsValid(p: VideoPage, linkActive: seq<bool>, expanded: bool)
    requires |linkActive| == |p.linkTimes|
    ensures Valid(p, Initial(linkActive, expanded))
  {
  }

  /** The synchronous part of `loadVideo(startTime)`: nothing when loaded;
      otherwise the spinner replaces the facade content and one more player
      is scheduled. It never sets `videoLoaded` or `iframe`. */
  function LoadStarted(p: VideoPage, s: VideoState, startTime: StartTime): (r: VideoState)
    ensures s.videoLoaded ==> r == s
    ensures r.videoLoaded == s.videoLoaded && r.iframeSrc == s.iframeSrc
    ensures !s.videoLoaded ==> r.facade == Spinner && r.pending == s.pending + [EmbedUrl(p.videoId, startTime)]
    ensures r.linkActive == s.linkActive && r.expanded == s.expanded
  {
    if s.videoLoaded then s
    else s.(facade := Spinner, pending := s.pending + [EmbedUrl(p.videoId, startTime)])
  }

  /** The 300 ms timer of the oldest pending load: its player replaces the
      facade content, becomes `iframe`, and the video counts as loaded. */
  function LoadCompleted(s: VideoState): (r: VideoState)
    requires s.pending != []
    ensures r.videoLoaded && r.iframeSrc == Some(s.pending[0]) && r.facade == Player(s.pending[0])
    ensures r.pending == s.pending[1..]
    ensures r.linkActive == s.linkActive && r.expanded == s.expanded
  {
    s.(facade := Player(s.pending[0]), iframeSrc := Some(s.pending[0]), videoLoaded := true,
       pending := s.pending[1..])
  }

  /** `handleTimestampClick` on link `k`: load at its time when not loaded,
      else seek the player; either way only link `k` is active afterwards. */
  function TimestampClicked(p: VideoPage, s: VideoState, k: nat): (r: VideoState)
    requires k < |p.linkTimes|
    ensures r.linkActive == OnlyAt(|p.linkTimes|, k)
    ensures !s.videoLoaded ==>
              r == LoadStarted(p, s, LinkTime(p.linkTimes[k])).(linkActive := r.linkActive)
    ensures s.videoLoaded ==>
              && r.videoLoaded && r.pending == s.pending && r.expanded == s.expanded
              && r.iframeSrc == Some(SeekUrl(p.linkTimes[k]))
              && r.facade == Player(SeekUrl(p.linkTimes[k]))
  {
    var s' :=
      if !s.videoLoaded then LoadStarted(p, s, LinkTime(p.linkTimes[k]))
      else s.(iframeSrc := Some(SeekUrl(p.linkTimes[k])), facade := Player(SeekUrl(p.linkTimes[k])));
    s'.(linkActive := OnlyAt(|p.linkTimes|, k))
  }

  /** The toggle button's listener: flip `expanded` and nothing else. */
  function TimestampsToggled(s: VideoState): (r: VideoState)
    ensures r.expanded == !s.expanded
    ensures r.(expanded := s.expanded) == s
  {
    s.(expanded := !s.expanded)
  }

  // ------------------------------------------------------------------
  // Events
  // ------------------------------------------------------------------

  datatype VideoEvent = PlayClick | TimestampClick(link: nat) | ToggleClick | LoadTimer

  /** Whether an event can happen: its listener was attached by `init`, the
      play button still sits in the placeholder, the link exists, the timer
      was scheduled. */
  predicate Enabled(p: VideoPage, s: VideoState, e: VideoEvent)
  {
    Wired(p) &&
    match e
    case PlayClick => p.hasPlayButton && s.facade == Placeholder
    case TimestampClick(k) => k < |p.linkTimes|
    case ToggleClick => p.hasToggle && p.hasContainer
    case LoadTimer => s.pending != []
  }

  /** One event; an event that cannot happen changes nothing. Every event
      keeps the state valid, and none unloads the video. */
  function Step(p: VideoPage, s: VideoState, e: VideoEvent): (r: VideoState)
    requires Valid(p, s)
    ensures Valid(p, r)
    ensures s.videoLoaded ==> r.videoLoaded
    ensures !s.videoLoaded && r.videoLoaded ==> e == LoadTimer
  {
    if !Enabled(p, s, e) then s
    else match e
      case PlayClick => LoadStarted(p, s, DefaultStart)
      case TimestampClick(k) => TimestampClicked(p, s, k)
      case ToggleClick => TimestampsToggled(s)
      case LoadTimer => LoadCompleted(s)
  }

  /** A sequence of events, in order. */
  function Run(p: VideoPage, s: VideoState, events: seq<VideoEvent>): (r: VideoState)
    requires Valid(p, s)
    ensures Valid(p, r)
    decreases |events|
  {
    if events == [] then s else Run(p, Step(p, s, events[0]), events[1..])
  }

  /** Loading is one-way: once loaded, the video stays loaded. */
  lemma {:induction false} LoadedStaysLoaded(p: VideoPage, s: VideoState, events: seq<VideoEvent>)
    requires Valid(p, s) && s.videoLoaded
    ensures Run(p, s, events).videoLoaded
    decreases |events|
  {
    if events != [] {
      LoadedStaysLoaded(p, Step(p, s, events[0]), events[1..]);
    }
  }

  /** Only the deferred completion loads the video: a run that loads it
      contains a timer firing, however many clicks it holds. */
  lemma {:induction false} OnlyTimerLoads(p: VideoPage, s: VideoState, events: seq<VideoEvent>)
    requires Valid(p, s) && !s.videoLoaded
    requires Run(p, s, events).videoLoaded
    ensures LoadTimer in events
    decreases |events|
  {
    if events != [] {
      var s' := Step(p, s, events[0]);
      if !s'.videoLoaded {
        OnlyTimerLoads(p, s', events[1..]);
        assert events == [events[0]] + events[1..];
      }
    } else {
      assert false;
    }
  }

  /** When `init` attached nothing, no event changes the page. */
  lemma {:induction false} UnwiredPageIsInert(p: VideoPage, s: VideoState, events: seq<VideoEvent>)
    requires Valid(p, s) && !Wired(p)
    ensures Run(p, s, events) == s
    decreases |events|
  {
    if events != [] {
      UnwiredPageIsInert(p, s, events[1..]);
    }
  }

  /** Two timestamp clicks before the timer fires both start a load; after
      the first timer the video is loaded and the second player is still
      pending, so it will replace the first. */
  lemma ClickBeforeTimerLoadsTwice(p: VideoPage, linkActive: seq<bool>, expanded: bool)
    requires Wired(p) && |p.linkTimes| >= 2 && |linkActive| == |p.linkTimes|
    ensures var r := Run(p, Initial(linkActive, expanded), [TimestampClick(0), TimestampClick(1), LoadTimer]);
            && r.videoLoaded
            && r.iframeSrc == Some(EmbedUrl(p.videoId, LinkTime(p.linkTimes[0])))
            && r.pending == [EmbedUrl(p.videoId, LinkTime(p.linkTimes[1]))]
  {
  }

  // ------------------------------------------------------------------
  // The controller
  // ------------------------------------------------------------------

  class VideoTimestamps {
    const page: VideoPage
    var facade: Facade
    var iframeSrc: Option<string>
    var videoLoaded: bool
    var pending: seq<string>
    var linkActive: seq<bool>
    var expanded: bool

    function State(): VideoState
      reads this
    {
      VideoState(facade, iframeSrc, videoLoaded, pending, linkActive, expanded)
    }

    /** The object as the page loads: `iframe: null`, `videoLoaded: false`,
        then `init` reading the page. */
    constructor Init(page: VideoPage, linkActive: seq<bool>, expanded: bool)
      requires |linkActive| == |page.linkTimes|
      ensures this.page == page
      ensures State() == Initial(linkActive, expanded) && Valid(page, State())
    {
      this.page := page;
      facade := Placeholder;
      iframeSrc := None;
      videoLoaded := false;
      pending := [];
      this.linkActive := linkActive;
      this.expanded := expanded;
    }

    /** `loadVideo(startTime)`, up to scheduling its timer. */
    method LoadVideo(startTime: StartTime)
      requires Wired(page)
      modifies this
      ensures State() == LoadStarted(page, old(State()), startTime)
    {
      if videoLoaded {
        return;
      }
      facade := Spinner;
      pending := pending + [EmbedUrl(page.videoId, startTime)];
    }

    /** The timer callback of the oldest pending `loadVideo`. */
    method CompleteLoad()
      requires pending != []
      modifies this
      ensures State() == LoadCompleted(old(State()))
    {
      var player := pending[0];
      facade := Player(player);
      iframeSrc := Some(player);
      videoLoaded := true;
      pending := pending[1..];
    }

    /** `handleTimestampClick` on link `k`. */
    method HandleTimestampClick(k: nat)
      requires Wired(page) && k < |page.linkTimes| && |linkActive| == |page.linkTimes|
      modifies this
      ensures State() == TimestampClicked(page, old(State()), k)
    {
      var time := page.linkTimes[k];
      if !videoLoaded {
        LoadVideo(LinkTime(time));
      } else {
        iframeSrc := Some(SeekUrl(time));
        facade := Player(SeekUrl(time));
      }
      ghost var before := State();
      var i := 0;
      while i < |linkActive|
        invariant 0 <= i <= |linkActive| == |page.linkTimes|
        invariant forall j :: 0 <= j < i ==> !linkActive[j]
        invariant State() == before.(linkActive := linkActive)
      {
        linkActive := linkActive[i := false];
        i := i + 1;
      }
      linkActive := linkActive[k := true];
      assert linkActive == OnlyAt(|page.linkTimes|, k);
    }

    /** The listener of the timestamps toggle button. */
    method ToggleTimestamps()
      modifies this
      ensures State() == TimestampsToggled(old(State()))
    {
      expanded := !expanded;
    }

    /** One event, when it can happen. */
    method Handle(e: VideoEvent)
      requires Valid(page, State()) && Enabled(page, State(), e)
      modifies this
      ensures State() == Step(page, old(State()), e)
    {
      match e {
        case PlayClick => LoadVideo(DefaultStart);
        case TimestampClick(k) => HandleTimestampClick(k);
        case ToggleClick => ToggleTimestamps();
        case LoadTimer => CompleteLoad();
      }
    }
  }
}
