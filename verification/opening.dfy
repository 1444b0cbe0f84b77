/** The opening sequence: a loading counter, a click-to-start gate, a 3-2-1
    countdown, a reveal hold and a zoom, ending in a completion callback.

    Every timer of the component is an explicit event here: one `LoadingTick`
    per firing of the 30 ms loading interval, one `CountdownTick` per firing of
    the 1000 ms countdown interval, `RevealElapsed` and `ZoomElapsed` for the two
    one-shot timeouts. Durations and interleavings with other components are not
    modelled; a sequential trace of events is. */
module Opening {

  /** The values the `phase` state variable takes. */
  datatype Phase = Loading | Ready | Countdown | Reveal | Zooming

  /** Position of a phase in the linear order loading, ready, countdown, reveal, zooming. */
  function Rank(p: Phase): (r: nat)
    ensures r <= 4
    ensures r == 0 <==> p == Loading
    ensures r == 4 <==> p == Zooming
  {
    match p
    case Loading => 0
    case Ready => 1
    case Countdown => 2
    case Reveal => 3
    case Zooming => 4
  }

  /** The loading counter stops at this percentage. */
  const LoadTarget: int := 100
  /** The first number shown by the countdown, and the start value of its local counter. */
  const CountdownStart: int := 3

  /** What can happen to the component: a timer firing, the user's click, the host unmounting it. */
  datatype Event = LoadingTick | Click | CountdownTick | RevealElapsed | ZoomElapsed | Unmount

  /** The component's three state variables, the timers it has armed, the countdown
      interval's captured local counter, and how often each callback has been called. */
  datatype State = State(
    count: int,            // loading percentage shown on screen
    phase: Phase,
    countdownVal: int,     // number shown during the countdown
    mounted: bool,         // false once the host has torn the component down
    loadingArmed: bool,    // the loading interval is running
    countdownArmed: bool,  // the countdown interval is running
    currentCount: int,     // the countdown interval's local counter
    revealArmed: bool,     // the reveal-hold timeout is pending
    zoomArmed: bool,       // the zoom timeout is pending
    startCalls: nat,       // calls made to onStart
    completeCalls: nat)    // calls made to onComplete

  /** The state right after mounting: counter 0, loading, countdown showing 3,
      and the loading interval armed by the mount effect. */
  function Init(): State
  {
    State(0, Loading, CountdownStart, true, true, false, CountdownStart, false, false, 0, 0)
  }

  /** A React state update, which is dropped once the component is unmounted. */
  function SetPhase(s: State, p: Phase): State
  {
    if s.mounted then s.(phase := p) else s
  }

  function SetCountdownVal(s: State, v: int): State
  {
    if s.mounted then s.(countdownVal := v) else s
  }

  /** One firing of the loading interval: below the target the counter goes up by
      one; at the target the interval clears itself and the phase becomes ready. */
  function OnLoadingTick(s: State): State
  {
    if !s.loadingArmed then s
    else if s.count >= LoadTarget then s.(loadingArmed := false, phase := Ready, count := LoadTarget)
    else s.(count := s.count + 1)
  }

  /** A click on the loader. Its handler is attached only while the phase is ready;
      it moves to the countdown, calls onStart and arms the countdown interval with
      a fresh local counter. */
  function OnClick(s: State): State
  {
    if s.mounted && s.phase == Ready then
      s.(phase := Countdown, startCalls := s.startCalls + 1,
         countdownArmed := true, currentCount := CountdownStart)
    else s
  }

  /** One firing of the countdown interval: the local counter goes down by one; while
      it is positive it is shown, and when it reaches zero the interval clears itself,
      the phase becomes reveal and the reveal-hold timeout is armed. */
  function OnCountdownTick(s: State): State
  {
    if !s.countdownArmed then s
    else
      var c := s.currentCount - 1;
      if c > 0 then SetCountdownVal(s.(currentCount := c), c)
      else SetPhase(s.(currentCount := c, countdownArmed := false, revealArmed := true), Reveal)
  }

  /** The reveal hold has elapsed: the phase becomes zooming and the zoom timeout is armed. */
  function OnRevealElapsed(s: State): State
  {
    if !s.revealArmed then s
    else SetPhase(s.(revealArmed := false, zoomArmed := true), Zooming)
  }

  /** The zoom has elapsed: onComplete is called. */
  function OnZoomElapsed(s: State): State
  {
    if !s.zoomArmed then s
    else s.(zoomArmed := false, completeCalls := s.completeCalls + 1)
  }

  /** The host unmounts the component. Only the loading interval has a cleanup;
      the countdown interval and the two timeouts stay armed. */
  function OnUnmount(s: State): State
  {
    s.(mounted := false, loadingArmed := false)
  }

  /** One event. An event whose timer is not armed cannot happen and leaves the state as it is. */
  function Step(s: State, e: Event): State
  {
    match e
    case LoadingTick => OnLoadingTick(s)
    case Click => OnClick(s)
    case CountdownTick => OnCountdownTick(s)
    case RevealElapsed => OnRevealElapsed(s)
    case ZoomElapsed => OnZoomElapsed(s)
    case Unmount => OnUnmount(s)
  }

  /** A trace of events, applied in order. */
  function Run(s: State, es: seq<Event>): State
    decreases |es|
  {
    if es == [] then s else Run(Step(s, es[0]), es[1..])
  }

  /** The same event `k` times. */
  function Repeat(s: State, e: Event, k: nat): State
  {
    if k == 0 then s else Step(Repeat(s, e, k - 1), e)
  }

  /** The stage of the timer chain started by the click: exactly one of the countdown
      interval, the reveal timeout and the zoom timeout is armed, or onComplete has
      been called; while mounted, the phase matches the stage. */
  ghost predicate ChainStage(s: State)
  {
    || (&& s.countdownArmed && !s.revealArmed && !s.zoomArmed && s.completeCalls == 0
        && 1 <= s.currentCount <= CountdownStart
        && (s.mounted ==> s.phase == Countdown && s.countdownVal == s.currentCount))
    || (&& !s.countdownArmed && s.revealArmed && !s.zoomArmed && s.completeCalls == 0
        && s.currentCount == 0 && (s.mounted ==> s.phase == Reveal))
    || (&& !s.countdownArmed && !s.revealArmed && s.zoomArmed && s.completeCalls == 0
        && s.currentCount == 0 && (s.mounted ==> s.phase == Zooming))
    || (&& !s.countdownArmed && !s.revealArmed && !s.zoomArmed && s.completeCalls == 1
        && s.currentCount == 0 && (s.mounted ==> s.phase == Zooming))
  }

  /** The invariant of every state reachable from `Init()`. */
  ghost predicate Inv(s: State)
  {
    && 0 <= s.count <= LoadTarget
    && (s.phase != Loading ==> s.count == LoadTarget)
    && (s.loadingArmed ==> s.mounted && s.phase == Loading)
    && (s.mounted && s.phase == Loading ==> s.loadingArmed)
    && 1 <= s.countdownVal <= CountdownStart
    && s.startCalls <= 1
    && s.completeCalls <= s.startCalls
    && (s.startCalls == 0 ==>
          && !s.countdownArmed && !s.revealArmed && !s.zoomArmed
          && s.countdownVal == CountdownStart && s.currentCount == CountdownStart
          && (s.phase == Loading || s.phase == Ready))
    && (s.startCalls == 1 ==> Rank(s.phase) >= 2 && ChainStage(s))
  }

  lemma InitInv()
    ensures Inv(Init())
    ensures Init().count == 0 && Init().phase == Loading && Init().countdownVal == 3
  {
  }

  /** Every event keeps the invariant. */
  lemma StepInv(s: State, e: Event)
    requires Inv(s)
    ensures Inv(Step(s, e))
  {
    match e
    case LoadingTick =>
    case Click =>
    case CountdownTick =>
    case RevealElapsed =>
    case ZoomElapsed =>
    case Unmount =>
  }

  lemma {:induction false} RunInv(s: State, es: seq<Event>)
    requires Inv(s)
    ensures Inv(Run(s, es))
    decreases |es|
  {
    if es != [] {
      StepInv(s, es[0]);
      RunInv(Step(s, es[0]), es[1..]);
    }
  }

  /** Whatever happens, the counter stays within 0..100, the countdown shows only 3, 2
      or 1 (never 0), and onStart and onComplete are each called at most once, onComplete
      never before onStart. */
  lemma {:induction false} Reachable(es: seq<Event>)
    ensures var s := Run(Init(), es);
      && 0 <= s.count <= LoadTarget
      && 1 <= s.countdownVal <= CountdownStart
      && s.startCalls <= 1 && s.completeCalls <= s.startCalls
      && (s.completeCalls == 1 && s.mounted ==> s.phase == Zooming)
  {
    InitInv();
    RunInv(Init(), es);
  }

  /** A loading tick never lowers the counter, raises it by at most one, and raises it
      exactly when the phase stays loading with the interval still running. */
  lemma LoadingTickCount(s: State)
    requires Inv(s) && s.loadingArmed
    ensures var t := OnLoadingTick(s);
      && s.count <= t.count <= LoadTarget
      && (s.count < LoadTarget ==> t.count == s.count + 1 && t.phase == Loading && t.loadingArmed)
      && (s.count >= LoadTarget ==> t.count == LoadTarget && t.phase == Ready && !t.loadingArmed)
  {
  }

  /** The phase only moves forward, and by at most one place per event: no phase is
      skipped and none is revisited. */
  lemma StepForward(s: State, e: Event)
    requires Inv(s)
    ensures Rank(s.phase) <= Rank(Step(s, e).phase) <= Rank(s.phase) + 1
  {
    match e
    case LoadingTick =>
    case Click =>
    case CountdownTick =>
    case RevealElapsed =>
    case ZoomElapsed =>
    case Unmount =>
  }

  lemma {:induction false} RunForward(s: State, es: seq<Event>)
    requires Inv(s)
    ensures Rank(s.phase) <= Rank(Run(s, es).phase)
    ensures s.count <= Run(s, es).count
    decreases |es|
  {
    if es != [] {
      StepForward(s, es[0]);
      StepInv(s, es[0]);
      RunForward(Step(s, es[0]), es[1..]);
    }
  }

  /** The counter only goes up, and once past a phase the sequencer never returns to it. */
  lemma {:induction false} ForwardFromInit(es: seq<Event>, more: seq<Event>)
    ensures var s := Run(Init(), es);
      var t := Run(s, more);
      Rank(s.phase) <= Rank(t.phase) && s.count <= t.count
  {
    InitInv();
    RunInv(Init(), es);
    RunForward(Run(Init(), es), more);
  }

  /** After `k` loading ticks from mounting the counter reads `k` for k up to 100; the
      phase becomes ready on the 101st tick, the one after the counter first reads 100. */
  lemma {:induction false} LoadingTicks(k: nat)
    ensures k <= 100 ==> Repeat(Init(), LoadingTick, k) == Init().(count := k)
    ensures k > 100 ==>
      Repeat(Init(), LoadingTick, k) == Init().(count := LoadTarget, phase := Ready, loadingArmed := false)
  {
    if k > 0 {
      LoadingTicks(k - 1);
    }
  }

  /** Clicking a second time, once the first click has been handled, changes nothing:
      one click, one onStart, one countdown. */
  lemma ClickOnce(s: State)
    requires Inv(s)
    ensures Step(Step(s, Click), Click) == Step(s, Click)
    ensures Step(s, Click).startCalls <= 1
  {
  }

  /** The whole sequence from the ready screen: the countdown shows 3, 2, 1, the third
      tick reveals, the reveal hold zooms, and the zoom calls onComplete once. */
  lemma FromReady(s: State)
    requires Inv(s) && s.mounted && s.phase == Ready
    ensures var s1 := Step(s, Click);
      var s2 := Step(s1, CountdownTick);
      var s3 := Step(s2, CountdownTick);
      var s4 := Step(s3, CountdownTick);
      var s5 := Step(s4, RevealElapsed);
      var s6 := Step(s5, ZoomElapsed);
      && s1.phase == Countdown && s1.countdownVal == 3 && s1.startCalls == 1
      && s2.phase == Countdown && s2.countdownVal == 2
      && s3.phase == Countdown && s3.countdownVal == 1
      && s4.phase == Reveal && s4.countdownVal == 1 && !s4.countdownArmed
      && s5.phase == Zooming && s5.completeCalls == 0
      && s6.phase == Zooming && s6.completeCalls == 1
      && !s6.loadingArmed && !s6.countdownArmed && !s6.revealArmed && !s6.zoomArmed
  {
  }

  /** Unmounting in the middle of the countdown does not stop the chain: the phase
      freezes, but onComplete is still called once the timers have run out. */
  lemma UnmountDuringCountdown(s: State)
    requires Inv(s) && s.mounted && s.phase == Ready
    ensures var t := Run(Step(s, Click),
                         [Unmount, CountdownTick, CountdownTick, CountdownTick, RevealElapsed, ZoomElapsed]);
      t.phase == Countdown && t.completeCalls == 1
  {
  }

  /** `c, c-1, ..., 1`: the numbers a countdown whose counter holds `c` still shows. */
  function Descending(c: int): (r: seq<int>)
    decreases c
    ensures |r| == if c <= 0 then 0 else c
    ensures forall i :: 0 <= i < |r| ==> r[i] == c - i
  {
    if c <= 0 then [] else [c] + Descending(c - 1)
  }

  /** The component as an object whose fields the event handlers update in place. */
  class Sequencer {
    var count: int
    var phase: Phase
    var countdownVal: int
    var mounted: bool
    var loadingArmed: bool
    var countdownArmed: bool
    var currentCount: int
    var revealArmed: bool
    var zoomArmed: bool
    var startCalls: nat
    var completeCalls: nat

    /** The fields as a `State` value. */
    function Snapshot(): State
      reads this
    {
      State(count, phase, countdownVal, mounted, loadingArmed, countdownArmed,
            currentCount, revealArmed, zoomArmed, startCalls, completeCalls)
    }

    /** Mounting: the initial state and the loading interval. */
    constructor ()
      ensures Snapshot() == Init() && Inv(Snapshot())
    {
      count, phase, countdownVal := 0, Loading, CountdownStart;
      mounted, loadingArmed := true, true;
      countdownArmed, currentCount := false, CountdownStart;
      revealArmed, zoomArmed := false, false;
      startCalls, completeCalls := 0, 0;
    }

    /** The loading interval's callback. */
    method LoadingTick()
      requires Inv(Snapshot()) && loadingArmed
      modifies this
      ensures Inv(Snapshot())
      ensures Snapshot() == Step(old(Snapshot()), Event.LoadingTick)
    {
      if count >= LoadTarget {
        loadingArmed := false;
        phase := Ready;
        count := LoadTarget;
      } else {
        count := count + 1;
      }
      StepInv(old(Snapshot()), Event.LoadingTick);
    }

    /** `handleStart`, attached as the click handler only while the phase is ready. */
    method HandleStart()
      requires Inv(Snapshot()) && mounted && phase == Ready
      modifies this
      ensures Inv(Snapshot())
      ensures Snapshot() == Step(old(Snapshot()), Click)
      ensures startCalls == old(startCalls) + 1 && phase == Countdown
    {
      phase := Countdown;
      startCalls := startCalls + 1;
      currentCount := CountdownStart;
      countdownArmed := true;
      StepInv(old(Snapshot()), Click);
    }

    /** The countdown interval's callback. */
    method CountdownTick()
      requires Inv(Snapshot()) && countdownArmed
      modifies this
      ensures Inv(Snapshot())
      ensures Snapshot() == Step(old(Snapshot()), Event.CountdownTick)
    {
      currentCount := currentCount - 1;
      if currentCount > 0 {
        if mounted { countdownVal := currentCount; }
      } else {
        countdownArmed := false;
        if mounted { phase := Reveal; }
        revealArmed := true;
      }
      StepInv(old(Snapshot()), Event.CountdownTick);
    }

    /** The reveal-hold timeout's callback. */
    method RevealTimeout()
      requires Inv(Snapshot()) && revealArmed
      modifies this
      ensures Inv(Snapshot())
      ensures Snapshot() == Step(old(Snapshot()), RevealElapsed)
    {
      revealArmed := false;
      if mounted { phase := Zooming; }
      zoomArmed := true;
      StepInv(old(Snapshot()), RevealElapsed);
    }

    /** The zoom timeout's callback, which calls onComplete. */
    method ZoomTimeout()
      requires Inv(Snapshot()) && zoomArmed
      modifies this
      ensures Inv(Snapshot())
      ensures Snapshot() == Step(old(Snapshot()), ZoomElapsed)
      ensures completeCalls == 1
    {
      zoomArmed := false;
      completeCalls := completeCalls + 1;
      StepInv(old(Snapshot()), ZoomElapsed);
    }

    /** The mount effect's cleanup. */
    method Teardown()
      requires Inv(Snapshot())
      modifies this
      ensures Inv(Snapshot())
      ensures Snapshot() == Step(old(Snapshot()), Unmount)
    {
      mounted := false;
      loadingArmed := false;
      StepInv(old(Snapshot()), Unmount);
    }

    /** The loading interval firing until it clears itself: it fires once per
        percentage point still missing and once more, and leaves the phase ready. */
    method RunLoading() returns (ticks: nat)
      requires Inv(Snapshot()) && loadingArmed
      modifies this
      ensures Inv(Snapshot())
      ensures Snapshot() == Repeat(old(Snapshot()), Event.LoadingTick, ticks)
      ensures ticks == LoadTarget + 1 - old(count)
      ensures phase == Ready && count == LoadTarget && !loadingArmed && mounted
    {
      ticks := 0;
      while loadingArmed
        invariant Inv(Snapshot()) && mounted && startCalls == 0
        invariant Snapshot() == Repeat(old(Snapshot()), Event.LoadingTick, ticks)
        invariant loadingArmed ==> ticks == count - old(count)
        invariant !loadingArmed ==> ticks == LoadTarget + 1 - old(count)
        decreases if loadingArmed then LoadTarget + 1 - count else 0
      {
        LoadingTick();
        ticks := ticks + 1;
      }
    }

    /** The countdown interval firing until it clears itself. Returns the numbers shown
        on screen, the one shown before the first firing included. */
    method RunCountdown() returns (shown: seq<int>)
      requires Inv(Snapshot()) && mounted && countdownArmed
      modifies this
      ensures Inv(Snapshot())
      ensures shown == Descending(old(currentCount))
      ensures phase == Reveal && revealArmed && !countdownArmed && completeCalls == 0
      ensures Snapshot() == Repeat(old(Snapshot()), Event.CountdownTick, |shown|)
    {
      shown := [countdownVal];
      ghost var fired: nat := 0;
      while countdownArmed
        invariant Inv(Snapshot()) && mounted && startCalls == 1
        invariant Snapshot() == Repeat(old(Snapshot()), Event.CountdownTick, fired)
        invariant |shown| == fired + (if countdownArmed then 1 else 0)
        invariant countdownArmed ==> shown + Descending(currentCount - 1) == Descending(old(currentCount))
        invariant !countdownArmed ==> shown == Descending(old(currentCount)) && revealArmed && completeCalls == 0
        decreases if countdownArmed then currentCount else 0
      {
        CountdownTick();
        fired := fired + 1;
        if countdownArmed {
          shown := shown + [countdownVal];
        }
      }
    }
  }

  /** The countdown started by a click shows exactly 3, 2, 1. */
  method StartAndCountDown(sequencer: Sequencer) returns (shown: seq<int>)
    requires Inv(sequencer.Snapshot()) && sequencer.mounted && sequencer.phase == Ready
    modifies sequencer
    ensures shown == [3, 2, 1]
    ensures sequencer.phase == Reveal && sequencer.startCalls == 1 && sequencer.completeCalls == 0
  {
    sequencer.HandleStart();
    shown := sequencer.RunCountdown();
    assert Descending(3) == [3, 2, 1];
  }
}
