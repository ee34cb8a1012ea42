/** The picture size the window asks the host for, and the debounce in front of the request. */
module StreamSize {
  import opened Options
  import opened ViewGeometry

  datatype Pixels = Pixels(width: int, height: int)

  const MIN_PX: int := 160
  const SETTLE_MS: int := 250
  const NATIVE_CEILING: Pixels := Pixels(3840, 2160)
  const FALLBACK_CEILING: Pixels := Pixels(1920, 1080)

  // ----- Which size --------------------------------------------------------

  /** What a bitwise operation makes of a number: its low 32 bits, signed. */
  function ToInt32(v: int): int {
    (v + 0x8000_0000) % 0x1_0000_0000 - 0x8000_0000
  }

  function Even(v: real): (r: int)
    ensures r % 2 == 0
  {
    var n := ToInt32(v.Floor);
    n - n % 2
  }

  function Least(a: int, b: int): int { if b < a then b else a }

  /** The device pixels of a window; a ratio that is not positive counts as one. */
  function DevicePixels(viewport: Size, ratio: real): Size {
    if ratio > 0.0 then Size(viewport.width * ratio, viewport.height * ratio) else viewport
  }

  function StreamSizeFor(layout: Layout, viewport: Size, ratio: real, ceiling: Pixels): Option<Pixels> {
    if layout.mode != Fit then Some(ceiling)
    else
      var pixels := DevicePixels(viewport, ratio);
      Fitted(pixels.width, pixels.height, ceiling)
  }

  /** The size for a window of so many device pixels, or none for one not yet laid out. */
  function Fitted(w: real, h: real, ceiling: Pixels): Option<Pixels> {
    var width, height := Even(w), Even(h);
    if width < MIN_PX || height < MIN_PX then None
    else Some(Pixels(Least(width, ceiling.width), Least(height, ceiling.height)))
  }

  /** A size is asked for only in even pixels, within the ceiling and at least the host's minimum. */
  lemma AskedSizeIsAcceptable(layout: Layout, viewport: Size, ratio: real, ceiling: Pixels)
    requires ceiling == NATIVE_CEILING || ceiling == FALLBACK_CEILING
    ensures ceiling == Pixels(3840, 2160) || ceiling == Pixels(1920, 1080)
    ensures var size := StreamSizeFor(layout, viewport, ratio, ceiling);
            size.Some? ==>
              && MIN_PX <= size.value.width <= ceiling.width && size.value.width % 2 == 0
              && MIN_PX <= size.value.height <= ceiling.height && size.value.height % 2 == 0
  {
    hide Even;
  }

  /** While the window holds fewer than 2^31 device pixels an axis, the fitted size is at most two short. */
  lemma FittedSizeIsTheWindow(w: real, h: real, ceiling: Pixels)
    requires 0.0 <= w < 2147483648.0 && 0.0 <= h < 2147483648.0
    ensures var size := Fitted(w, h, ceiling);
            size.Some? ==>
              && (size.value.width < ceiling.width ==> w - 2.0 < size.value.width as real <= w)
              && (size.value.height < ceiling.height ==> h - 2.0 < size.value.height as real <= h)
  {
    EvenIsClose(w);
    EvenIsClose(h);
    hide Even;
  }

  lemma EvenIsClose(v: real)
    requires 0.0 <= v < 2147483648.0
    ensures v - 2.0 < Even(v) as real <= v
  {
    var n := v.Floor;
    assert n as real <= v < n as real + 1.0;
    assert 0 <= n < 0x8000_0000;
    assert ToInt32(n) == n;
  }

  lemma EvenReaches(v: real, n: int)
    requires 0.0 <= v < 2147483648.0 && n % 2 == 0
    ensures Even(v) >= n <==> v >= n as real
  {
    EvenIsClose(v);
    var f := v.Floor;
    assert f as real <= v < f as real + 1.0;
    assert ToInt32(f) == f;
  }

  /**
   When a size is asked for: always outside fit mode, and it is the ceiling then; in fit mode, just if
   both axes of the window reach 160 device pixels, and an axis that reaches the ceiling asks for the
   ceiling.
   */
  lemma AskedExactly(layout: Layout, viewport: Size, ratio: real, ceiling: Pixels)
    requires ceiling == Pixels(3840, 2160) || ceiling == Pixels(1920, 1080)
    ensures var pixels := DevicePixels(viewport, ratio);
            && (ratio > 0.0 ==> pixels.width == viewport.width * ratio && pixels.height == viewport.height * ratio)
            && (ratio <= 0.0 ==> pixels == viewport)
    ensures var size, pixels := StreamSizeFor(layout, viewport, ratio, ceiling), DevicePixels(viewport, ratio);
            && (layout.mode != Fit ==> size == Some(ceiling))
            && (layout.mode == Fit && 0.0 <= pixels.width < 2147483648.0 && 0.0 <= pixels.height < 2147483648.0 ==>
                  && (size.Some? <==> pixels.width >= 160.0 && pixels.height >= 160.0)
                  && (size.Some? && pixels.width >= ceiling.width as real ==> size.value.width == ceiling.width)
                  && (size.Some? && pixels.height >= ceiling.height as real ==> size.value.height == ceiling.height))
  {
    FitAsked(layout, viewport, ratio, ceiling);
    hide StreamSizeFor;
  }

  lemma FitAsked(layout: Layout, viewport: Size, ratio: real, ceiling: Pixels)
    requires ceiling == Pixels(3840, 2160) || ceiling == Pixels(1920, 1080)
    ensures var size, pixels := StreamSizeFor(layout, viewport, ratio, ceiling), DevicePixels(viewport, ratio);
            && (layout.mode != Fit ==> size == Some(ceiling))
            && (layout.mode == Fit && 0.0 <= pixels.width < 2147483648.0 && 0.0 <= pixels.height < 2147483648.0 ==>
                  && (size.Some? <==> pixels.width >= 160.0 && pixels.height >= 160.0)
                  && (size.Some? && pixels.width >= ceiling.width as real ==> size.value.width == ceiling.width)
                  && (size.Some? && pixels.height >= ceiling.height as real ==> size.value.height == ceiling.height))
  {
    hide DevicePixels, Fitted, Even;
    var pixels := DevicePixels(viewport, ratio);
    if 0.0 <= pixels.width < 2147483648.0 && 0.0 <= pixels.height < 2147483648.0 {
      FittedExactly(pixels.width, pixels.height, ceiling);
    }
  }

  lemma FittedExactly(w: real, h: real, ceiling: Pixels)
    requires 0.0 <= w < 2147483648.0 && 0.0 <= h < 2147483648.0
    requires ceiling.width % 2 == 0 && ceiling.height % 2 == 0
    ensures var size := Fitted(w, h, ceiling);
            && (size.Some? <==> w >= 160.0 && h >= 160.0)
            && (size.Some? && w >= ceiling.width as real ==> size.value.width == ceiling.width)
            && (size.Some? && h >= ceiling.height as real ==> size.value.height == ceiling.height)
  {
    EvenReaches(w, MIN_PX);
    EvenReaches(h, MIN_PX);
    EvenReaches(w, ceiling.width);
    EvenReaches(h, ceiling.height);
    hide Even;
  }

  /** The answer never depends on the frame on screen, not even through the pan it clamps. */
  lemma FrameDoesNotMatter(layout: Layout, frame: Size, viewport: Size, ratio: real, ceiling: Pixels)
    requires ratio != 0.0
    ensures StreamSizeFor(ClampPan(layout, frame, viewport, ratio), viewport, ratio, ceiling)
         == StreamSizeFor(layout, viewport, ratio, ceiling)
  {
  }

  // ----- When it is asked for ----------------------------------------------

  /**
   A request made: when, for what, whether a refusal came since the one before, and when a layout
   last found something to ask for.
   */
  datatype Request = Request(at: int, size: Pixels, afterRefusal: bool, unsettledAt: int)

  datatype State = State(
    sent: Option<Pixels>, timer: Option<int>, refused: bool, clock: int, requests: seq<Request>, unsettledAt: int)

  const SILENT: State := State(None, None, false, 0, [], 0)

  /** What happens: the layout is applied, the timer runs out, a request turns out refused. */
  datatype Event =
    | Syncs(at: int, wanted: Option<Pixels>)
    | Fires(at: int, wanted: Option<Pixels>)
    | Refuses(at: int)

  function Sync(s: State, at: int, wanted: Option<Pixels>): State {
    if wanted.None? || s.sent == wanted then s.(clock := at)
    else s.(clock := at, timer := Some(at + SETTLE_MS), unsettledAt := at)
  }

  function Fire(s: State, at: int, wanted: Option<Pixels>): State {
    var t := s.(clock := at, timer := None);
    if wanted.None? || s.sent == wanted then t
    else t.(sent := wanted, refused := false,
            requests := s.requests + [Request(at, wanted.value, s.refused, s.unsettledAt)])
  }

  function Refuse(s: State, at: int): State {
    s.(clock := at, sent := None, refused := true)
  }

  function Step(s: State, e: Event): State {
    match e
    case Syncs(at, wanted) => Sync(s, at, wanted)
    case Fires(at, wanted) => Fire(s, at, wanted)
    case Refuses(at) => Refuse(s, at)
  }

  /** Time does not run back, and a timer runs out only when armed and due. */
  predicate Possible(s: State, e: Event) {
    e.at >= s.clock && (e.Fires? ==> s.timer.Some? && e.at >= s.timer.value)
  }

  function After(s: State, events: seq<Event>): State
    decreases |events|
  {
    if events == [] then s else After(Step(s, events[0]), events[1..])
  }

  predicate AllPossible(s: State, events: seq<Event>)
    decreases |events|
  {
    events == [] || (Possible(s, events[0]) && AllPossible(Step(s, events[0]), events[1..]))
  }

  class Sizer {
    var sentStreamSize: Option<Pixels>
    var streamSizeTimer: Option<int>
    /** The requests made, with what the bounds on them are about. */
    ghost var requests: seq<Request>
    ghost var refused: bool
    ghost var clock: int
    ghost var unsettledAt: int

    ghost function View(): State
      reads this
    {
      State(sentStreamSize, streamSizeTimer, refused, clock, requests, unsettledAt)
    }

    constructor ()
      ensures View() == SILENT
    {
      sentStreamSize, streamSizeTimer, requests, refused, clock, unsettledAt := None, None, [], false, 0, 0;
    }

    /** Called whenever the layout is applied, with the size now wanted. */
    method SyncStreamSize(now: int, wanted: Option<Pixels>)
      modifies this
      ensures View() == Sync(old(View()), now, wanted)
      ensures wanted.Some? ==> sentStreamSize == wanted || streamSizeTimer.Some?
      ensures wanted.None? || sentStreamSize == wanted ==> streamSizeTimer == old(streamSizeTimer)
    {
      clock := now;
      if wanted.None? || sentStreamSize == wanted {
        return;
      }
      streamSizeTimer := Some(now + SETTLE_MS);
      unsettledAt := now;
    }

    /** The timer's callback; the size is computed again rather than remembered, and a stopped window wants none. */
    method TimerFires(now: int, wanted: Option<Pixels>)
      requires streamSizeTimer.Some?
      modifies this
      ensures View() == Fire(old(View()), now, wanted)
      ensures wanted.Some? ==> sentStreamSize == wanted
    {
      clock := now;
      streamSizeTimer := None;
      if wanted.None? || sentStreamSize == wanted {
        return;
      }
      sentStreamSize := wanted;
      requests := requests + [Request(now, wanted.value, refused, unsettledAt)];
      refused := false;
    }

    method RequestRefused(now: int)
      modifies this
      ensures View() == Refuse(old(View()), now)
    {
      clock, sentStreamSize, refused := now, None, true;
    }
  }

  /** Requests keep their distance, and repeat themselves only after a refusal. */
  ghost predicate Spaced(requests: seq<Request>) {
    forall i, j :: 0 <= i < j < |requests| && j == i + 1 ==>
      && requests[i].at + 250 <= requests[j].at
      && (requests[i].size != requests[j].size || requests[j].afterRefusal)
  }

  /** No request goes out until the window has been still for a quarter of a second. */
  ghost predicate Settled(requests: seq<Request>) {
    forall i :: 0 <= i < |requests| ==> requests[i].unsettledAt + 250 <= requests[i].at
  }

  ghost predicate Inv(s: State) {
    && Spaced(s.requests) && Settled(s.requests)
    && (s.timer.Some? ==> s.timer.value == s.unsettledAt + SETTLE_MS)
    && (s.requests == [] ==> s.sent.None?)
    && (s.requests != [] ==>
          var last := s.requests[|s.requests| - 1];
          && last.at <= s.clock
          && (s.timer.Some? ==> last.at + SETTLE_MS <= s.timer.value)
          && (s.refused || s.sent == Some(last.size)))
  }

  lemma StepKeepsInv(s: State, e: Event)
    requires Inv(s) && Possible(s, e)
    ensures Inv(Step(s, e))
  {
    var s' := Step(s, e);
    if s'.requests != s.requests && s.requests != [] {
      var n := |s.requests|;
      assert s'.requests[..n] == s.requests;
      forall i, j | 0 <= i < j < |s'.requests| && j == i + 1
        ensures s'.requests[i].at + SETTLE_MS <= s'.requests[j].at
        ensures s'.requests[i].size != s'.requests[j].size || s'.requests[j].afterRefusal
      {
        if j < n {
          assert s'.requests[i] == s.requests[i] && s'.requests[j] == s.requests[j];
        }
      }
    }
  }

  lemma {:induction false} RunsKeepInv(s: State, events: seq<Event>)
    requires Inv(s) && AllPossible(s, events)
    ensures Inv(After(s, events))
    decreases |events|
  {
    if events != [] {
      StepKeepsInv(s, events[0]);
      RunsKeepInv(Step(s, events[0]), events[1..]);
    }
  }

  /**
   In every run, consecutive requests are 250 ms apart and differ, or a refusal came between; and
   each goes out 250 ms or more after the last layout that found something to ask for.
   */
  lemma RequestsAreSpaced(events: seq<Event>)
    requires AllPossible(SILENT, events)
    ensures Spaced(After(SILENT, events).requests) && Settled(After(SILENT, events).requests)
  {
    RunsKeepInv(SILENT, events);
  }

  // ----- The window around it ----------------------------------------------

  /** `devicePixelRatio || 1`. */
  type Ratio = r: real | r != 0.0 witness 1.0

  /** The window a size is asked for: how it is laid out, the frame on screen, and the debounce. */
  datatype Window = Window(
    layout: Layout, frame: Size, viewport: Size, ratio: Ratio, ceiling: Pixels, sizer: State)

  /**
   What happens to a window. A person or the system changes it; it is laid out again, or only its
   size synced; a frame arrives, of any size, and it is laid out again; the timer runs out, in a
   window that may have stopped; a request turns out refused.
   */
  datatype Happening =
    | Changes(layout: Layout, viewport: Size, ratio: Ratio, ceiling: Pixels)
    | LaysOut(at: int)
    | Resyncs(at: int)
    | FrameArrives(at: int, frame: Size)
    | RunsOut(at: int, stopped: bool)
    | TurnsOutRefused(at: int)

  function Wanted(w: Window): Option<Pixels> {
    StreamSizeFor(w.layout, w.viewport, w.ratio, w.ceiling)
  }

  function ApplyLayout(w: Window, at: int): Window {
    var w' := w.(layout := ClampPan(w.layout, w.frame, w.viewport, w.ratio));
    w'.(sizer := Sync(w.sizer, at, Wanted(w')))
  }

  function Happens(w: Window, h: Happening): Window {
    match h
    case Changes(layout, viewport, ratio, ceiling) =>
      w.(layout := layout, viewport := viewport, ratio := ratio, ceiling := ceiling)
    case LaysOut(at) => ApplyLayout(w, at)
    case Resyncs(at) => w.(sizer := Sync(w.sizer, at, Wanted(w)))
    case FrameArrives(at, frame) => ApplyLayout(w.(frame := frame), at)
    case RunsOut(at, stopped) => w.(sizer := Fire(w.sizer, at, if stopped then None else Wanted(w)))
    case TurnsOutRefused(at) => w.(sizer := Refuse(w.sizer, at))
  }

  function AfterAll(w: Window, hs: seq<Happening>): Window
    decreases |hs|
  {
    if hs == [] then w else AfterAll(Happens(w, hs[0]), hs[1..])
  }

  class PictureWindow {
    var layout: Layout
    var frameSize: Size
    var viewport: Size
    var ratio: Ratio
    var pictureCeiling: Pixels
    const sizer: Sizer

    ghost function View(): Window
      reads this, sizer
    {
      Window(layout, frameSize, viewport, ratio, pictureCeiling, sizer.View())
    }

    constructor (layout: Layout, viewport: Size, ratio: Ratio)
      ensures View() == Window(layout, Size(0.0, 0.0), viewport, ratio, FALLBACK_CEILING, SILENT) && fresh(sizer)
    {
      this.layout, frameSize, this.viewport, this.ratio := layout, Size(0.0, 0.0), viewport, ratio;
      pictureCeiling := FALLBACK_CEILING;
      sizer := new Sizer();
    }

    method LayOut(now: int)
      modifies this, sizer
      ensures View() == ApplyLayout(old(View()), now)
    {
      hide ClampPan, StreamSizeFor;
      layout := ClampPan(layout, frameSize, viewport, ratio);
      sizer.SyncStreamSize(now, StreamSizeFor(layout, viewport, ratio, pictureCeiling));
    }

    method TakeFrame(now: int, frame: Size)
      modifies this, sizer
      ensures View() == Happens(old(View()), FrameArrives(now, frame))
    {
      frameSize := frame;
      LayOut(now);
    }

    method SettleTimer(now: int, stopped: bool)
      requires sizer.streamSizeTimer.Some?
      modifies sizer
      ensures View() == Happens(old(View()), RunsOut(now, stopped))
    {
      hide StreamSizeFor;
      var wanted := if stopped then None else StreamSizeFor(layout, viewport, ratio, pictureCeiling);
      sizer.TimerFires(now, wanted);
    }
  }

  /** What counts as a reason to ask anew: a change of the size wanted, or a refusal. */
  predicate IsReason(w: Window, h: Happening) {
    h.TurnsOutRefused? || Wanted(Happens(w, h)) != Wanted(w)
  }

  function Reasons(w: Window, hs: seq<Happening>): nat
    decreases |hs|
  {
    if hs == [] then 0 else (if IsReason(w, hs[0]) then 1 else 0) + Reasons(Happens(w, hs[0]), hs[1..])
  }

  /** One request may be owed: the host was last told something else than the window wants. */
  function Owed(w: Window): nat { if w.sizer.sent == Wanted(w) then 0 else 1 }

  /** Only a change of the window gives a new size to want; no frame does, whatever its size. */
  lemma OnlyChangesMatter(w: Window, h: Happening)
    ensures !h.Changes? ==> Wanted(Happens(w, h)) == Wanted(w)
  {
    hide StreamSizeFor, ClampPan;
    FrameDoesNotMatter(w.layout, w.frame, w.viewport, w.ratio, w.ceiling);
    if h.FrameArrives? {
      FrameDoesNotMatter(w.layout, h.frame, w.viewport, w.ratio, w.ceiling);
    }
  }

  lemma OneHappening(w: Window, h: Happening)
    ensures var w' := Happens(w, h);
            && |w.sizer.requests| <= |w'.sizer.requests|
            && |w'.sizer.requests| + Owed(w') <= |w.sizer.requests| + Owed(w) + if IsReason(w, h) then 1 else 0
  {
    OnlyChangesMatter(w, h);
    hide Wanted, ClampPan;
  }

  /**
   In every run of a window, requests are earned: each one beyond the first is paid for by a
   change of the size wanted or by a refusal, however many frames arrive at whatever size.
   */
  lemma {:induction false} RequestsAreEarned(w: Window, hs: seq<Happening>)
    ensures var w' := AfterAll(w, hs);
            && |w.sizer.requests| <= |w'.sizer.requests|
            && |w'.sizer.requests| + Owed(w') <= |w.sizer.requests| + Owed(w) + Reasons(w, hs)
    decreases |hs|
  {
    if hs != [] {
      OneHappening(w, hs[0]);
      hide Happens, Owed, IsReason;
      RequestsAreEarned(Happens(w, hs[0]), hs[1..]);
    }
  }

  /**
   No resize loop: over a window nobody changes, any run of layouts, frames of any sizes and
   timers makes at most one more request, none if the host was last told the size wanted, and
   leaves that size as it was.
   */
  lemma SteadyWindowAsksOnce(w: Window, hs: seq<Happening>)
    requires forall i :: 0 <= i < |hs| ==> !hs[i].Changes? && !hs[i].TurnsOutRefused?
    ensures var w' := AfterAll(w, hs);
            && |w'.sizer.requests| <= |w.sizer.requests| + 1
            && (w.sizer.sent == Wanted(w) ==> |w'.sizer.requests| == |w.sizer.requests|)
            && Wanted(w') == Wanted(w)
  {
    RequestsAreEarned(w, hs);
    NoReasons(w, hs);
  }

  lemma {:induction false} NoReasons(w: Window, hs: seq<Happening>)
    requires forall i :: 0 <= i < |hs| ==> !hs[i].Changes? && !hs[i].TurnsOutRefused?
    ensures Reasons(w, hs) == 0 && Wanted(AfterAll(w, hs)) == Wanted(w)
    decreases |hs|
  {
    if hs != [] {
      OnlyChangesMatter(w, hs[0]);
      hide Happens, Wanted;
      NoReasons(Happens(w, hs[0]), hs[1..]);
    }
  }

  /** Nothing changes the window, no request is refused, and the window has not stopped. */
  predicate Calm(h: Happening) {
    !h.Changes? && !h.TurnsOutRefused? && (h.RunsOut? ==> !h.stopped)
  }

  predicate Lays(h: Happening) { h.LaysOut? || h.Resyncs? || h.FrameArrives? }

  lemma CalmStep(w: Window, h: Happening)
    requires Calm(h) && Wanted(w).Some?
    ensures var w' := Happens(w, h);
            && Wanted(w') == Wanted(w)
            && (w.sizer.sent == Wanted(w) || h.RunsOut? ==> w'.sizer.sent == Wanted(w))
            && (w.sizer.timer.Some? || Lays(h) ==> w'.sizer.sent == Wanted(w) || w'.sizer.timer.Some?)
  {
    OnlyChangesMatter(w, h);
    hide StreamSizeFor, ClampPan;
  }

  lemma {:induction false} CalmRun(w: Window, hs: seq<Happening>)
    requires Wanted(w).Some? && (forall i :: 0 <= i < |hs| ==> Calm(hs[i]))
    ensures var w' := AfterAll(w, hs);
            && Wanted(w') == Wanted(w)
            && (w.sizer.sent == Wanted(w) || (exists i :: 0 <= i < |hs| && hs[i].RunsOut?) ==>
                  w'.sizer.sent == Wanted(w))
            && (w.sizer.sent == Wanted(w) || w.sizer.timer.Some? ==>
                  w'.sizer.sent == Wanted(w) || w'.sizer.timer.Some?)
    decreases |hs|
  {
    if hs != [] {
      CalmStep(w, hs[0]);
      var w1 := Happens(w, hs[0]);
      hide Happens, Wanted;
      CalmRun(w1, hs[1..]);
      forall i | 0 <= i < |hs| && hs[i].RunsOut?
        ensures AfterAll(w, hs).sizer.sent == Wanted(w)
      {
        if i > 0 {
          assert hs[1..][i - 1].RunsOut?;
        }
      }
    }
  }

  /**
   After every layout or frame that wants a size, in any calm run of the window: the host was last
   told that size or a timer is armed; and once the timer has run out the host was last told it,
   through every later layout, frame and timer.
   */
  lemma SyncSettles(w: Window, h: Happening, hs: seq<Happening>)
    requires Wanted(w).Some? && Lays(h) && (forall i :: 0 <= i < |hs| ==> Calm(hs[i]))
    ensures var w' := AfterAll(Happens(w, h), hs);
            && (w'.sizer.sent == Wanted(w) || w'.sizer.timer.Some?)
            && ((exists i :: 0 <= i < |hs| && hs[i].RunsOut?) ==> w'.sizer.sent == Wanted(w))
  {
    CalmStep(w, h);
    hide Happens, Wanted;
    CalmRun(Happens(w, h), hs);
  }
}
