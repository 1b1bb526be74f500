/**
  The call page's session state (src/pages/Index.tsx) as a value, and each
  handler as a transition on it. Every React handler is one atomic step; the
  effect that depends on `inCall` (it arms the 1-second interval when the call
  starts and clears it when the call ends) is folded into the transition that
  flips `inCall`. The browser's interval table is part of the state, so that
  "at most one tick source" and "cleared on every exit path" can be stated.
 */
module CallState {
  import opened Options
  import opened Media
  import DurationFormat

  /** CALL_DURATION_LIMIT_MINUTES. */
  const CallDurationLimitMinutes: nat := 30

  /** The tick compares the elapsed seconds against minutes * 60. */
  const LimitSeconds: nat := CallDurationLimitMinutes * 60

  /** The message shown when camera or microphone cannot be acquired. */
  const PermissionMessage: string :=
    "Não foi possível acessar sua câmera ou microfone. Verifique as permissões do navegador."

  /** `window.setInterval` returns a positive id, so a set `timerRef` is always truthy. */
  type IntervalId = n: int | 1 <= n witness 1

  /** What `getUserMedia` does with the request: a stream with tracks of these kinds, or a rejection. */
  datatype Acquisition = Granted(kinds: seq<Kind>) | Denied

  datatype State = State(
    mounted: bool,                   // the component is on the page
    inCall: bool,
    connecting: bool,
    duration: nat,                   // elapsed seconds
    micOn: bool,                     // mediaState.micOn
    camOn: bool,                     // mediaState.camOn
    permissionError: Option<string>,
    stream: Option<seq<Track>>,      // selfStreamRef.current
    timerRef: Option<IntervalId>,    // timerRef.current
    scheduled: set<IntervalId>,      // the browser's intervals that still fire
    nextInterval: IntervalId)        // the id the browser hands out next

  /** The state on mount. */
  function Initial(): State {
    State(true, false, false, 0, true, true, None, None, None, {}, 1)
  }

  function RefSet(r: Option<IntervalId>): set<IntervalId> {
    if r.Some? then {r.value} else {}
  }

  /** What every reachable state satisfies, with the code as written or corrected. */
  predicate CoreInv(s: State) {
    && (forall id :: id in s.scheduled ==> id < s.nextInterval)
    && (s.timerRef.Some? ==> s.timerRef.value < s.nextInterval)
    && !s.connecting
    && (s.mounted ==>
         // the only interval that fires is the one timerRef holds, and it exists exactly while in the call
         && s.scheduled == RefSet(s.timerRef)
         && (s.timerRef.Some? <==> s.inCall)
         // the stream is held exactly while in the call, and it is live
         && (s.stream.Some? <==> s.inCall)
         && (s.inCall ==> s.duration <= LimitSeconds)
         && (!s.inCall ==> s.duration == 0)
         && (s.stream.Some? ==> NoneStopped(s.stream.value)))
    && (!s.mounted ==> s.scheduled == {} && s.stream == None)
  }

  /** The tracks of a held stream follow the mic and cam flags. */
  predicate TracksFollowFlags(s: State) {
    s.stream.Some? ==>
      KindEnabled(s.stream.value, Audio, s.micOn) && KindEnabled(s.stream.value, Video, s.camOn)
  }

  /** What every reachable state of the corrected program satisfies. */
  predicate Inv(s: State) {
    CoreInv(s) && TracksFollowFlags(s)
  }

  /** The start control is enabled (it is disabled while `connecting || inCall`). */
  predicate CanStart(s: State) {
    !s.connecting && !s.inCall
  }

  // ---------------------------------------------------------------- timers

  /** `window.setInterval(...)`, its id stored in timerRef. */
  function SetInterval(s: State): State {
    var id := s.nextInterval;
    s.(timerRef := Some(id), scheduled := s.scheduled + {id}, nextInterval := id + 1)
  }

  /** `window.clearInterval(id)`: clearing a cleared id is a silent no-op. */
  function ClearInterval(s: State, id: IntervalId): State {
    s.(scheduled := s.scheduled - {id})
  }

  /** `if (timerRef.current) { clearInterval(timerRef.current); timerRef.current = null; }` */
  function ClearTimerRef(s: State): State {
    match s.timerRef
    case None => s
    case Some(id) => ClearInterval(s, id).(timerRef := None)
  }

  // ---------------------------------------------------------------- device acquisition

  /** The tracks the corrected requestMedia stores: gated by the current mic and cam flags. */
  function AcquiredTracks(kinds: seq<Kind>, micOn: bool, camOn: bool): seq<Track> {
    SetEnabled(SetEnabled(LiveTracks(kinds), Audio, micOn), Video, camOn)
  }

  /** requestMedia: clears the error, then stores the stream or sets the
      permission message; the boolean is its return value. */
  function RequestMedia(s: State, acq: Acquisition): (State, bool) {
    var cleared := s.(permissionError := None);
    match acq
    case Granted(kinds) => (cleared.(stream := Some(AcquiredTracks(kinds, s.micOn, s.camOn))), true)
    case Denied => (cleared.(permissionError := Some(PermissionMessage)), false)
  }

  /** requestMedia as written: the new tracks keep `getUserMedia`'s enabled state. */
  function RequestMediaAsWritten(s: State, acq: Acquisition): (State, bool) {
    var cleared := s.(permissionError := None);
    match acq
    case Granted(kinds) => (cleared.(stream := Some(LiveTracks(kinds))), true)
    case Denied => (cleared.(permissionError := Some(PermissionMessage)), false)
  }

  /** The rest of startCall once requestMedia has answered; on success the
      `inCall` effect arms the interval. */
  function AfterRequest(r: (State, bool)): State {
    var (s, ok) := r;
    if !ok then s.(connecting := false)
    else SetInterval(s.(duration := 0, inCall := true, connecting := false))
  }

  function StartCall(s: State, acq: Acquisition): State
    requires CanStart(s)
  {
    AfterRequest(RequestMedia(s.(connecting := true), acq))
  }

  function StartCallAsWritten(s: State, acq: Acquisition): State
    requires CanStart(s)
  {
    AfterRequest(RequestMediaAsWritten(s.(connecting := true), acq))
  }

  // ---------------------------------------------------------------- teardown

  /** stopMediaTracks: stop every track (see Media.StopAll) and drop the reference. */
  function StopMediaTracks(s: State): State {
    if s.stream.Some? then s.(stream := None) else s
  }

  /** endCall; then, if the call was on, the `inCall` effect's cleanup, which finds timerRef already null. */
  function EndCall(s: State): State {
    var ended := ClearTimerRef(StopMediaTracks(s.(inCall := false, duration := 0)));
    if s.inCall then ClearTimerRef(ended) else ended
  }

  /** The interval callback: past the limit it ends the call, otherwise it counts one second. */
  function Tick(s: State): State {
    if s.duration >= LimitSeconds then EndCall(s) else s.(duration := s.duration + 1)
  }

  /** `if (timerRef.current) { clearInterval(timerRef.current); }`: the ref itself is left set. */
  function ClearRefInterval(s: State): State {
    match s.timerRef
    case None => s
    case Some(id) => ClearInterval(s, id)
  }

  /** Unmount runs the effect cleanups in declaration order: the `inCall`
      effect's (registered only while in the call), then the mount effect's,
      which stops the tracks and clears the interval without nulling the ref. */
  function Unmount(s: State): State {
    var s1 := if s.inCall then ClearTimerRef(s) else s;
    ClearRefInterval(StopMediaTracks(s1)).(mounted := false)
  }

  // ---------------------------------------------------------------- track gate

  function ToggleMic(s: State): State {
    var next := !s.micOn;
    s.(micOn := next, stream := if s.stream.Some? then Some(SetEnabled(s.stream.value, Audio, next)) else None)
  }

  function ToggleCam(s: State): State {
    var next := !s.camOn;
    s.(camOn := next, stream := if s.stream.Some? then Some(SetEnabled(s.stream.value, Video, next)) else None)
  }

  // ---------------------------------------------------------------- events

  datatype Event =
    | StartPressed(acq: Acquisition)
    | IntervalFired
    | EndPressed
    | MicPressed
    | CamPressed
    | Unmounted

  /** One event. Nothing happens once unmounted, a press on the disabled start
      control does nothing, and an interval fires only while one is scheduled. */
  function Step(s: State, e: Event): State {
    if !s.mounted then s
    else
      match e
      case StartPressed(acq) => if CanStart(s) then StartCall(s, acq) else s
      case IntervalFired => if s.scheduled == {} then s else Tick(s)
      case EndPressed => EndCall(s)
      case MicPressed => ToggleMic(s)
      case CamPressed => ToggleCam(s)
      case Unmounted => Unmount(s)
  }

  function Run(s: State, es: seq<Event>): State
    decreases |es|
  {
    if es == [] then s else Run(Step(s, es[0]), es[1..])
  }

  /** One event with the code as written: only a press of the enabled start control differs from Step. */
  function StepAsWritten(s: State, e: Event): State {
    if s.mounted && e.StartPressed? && CanStart(s) then StartCallAsWritten(s, e.acq) else Step(s, e)
  }

  function RunAsWritten(s: State, es: seq<Event>): State
    decreases |es|
  {
    if es == [] then s else RunAsWritten(StepAsWritten(s, es[0]), es[1..])
  }

  function Ticks(n: nat): seq<Event> {
    seq(n, _ => IntervalFired)
  }

  // ---------------------------------------------------------------- invariant

  lemma InitialInv()
    ensures Inv(Initial())
    ensures Initial().mounted && CanStart(Initial()) && Initial().micOn && Initial().camOn
  {
  }

  lemma StartCallInv(s: State, acq: Acquisition)
    requires Inv(s) && s.mounted && CanStart(s)
    ensures Inv(StartCall(s, acq))
  {
    if acq.Granted? {
      AcquiredTracksFollowFlags(acq.kinds, s.micOn, s.camOn);
    }
  }

  lemma EndCallInv(s: State)
    requires Inv(s)
    ensures Inv(EndCall(s))
  {
  }

  lemma TickInv(s: State)
    requires Inv(s) && s.mounted && s.scheduled != {}
    ensures Inv(Tick(s))
  {
    EndCallInv(s);
  }

  lemma ToggleMicInv(s: State)
    requires Inv(s)
    ensures Inv(ToggleMic(s))
  {
    if s.stream.Some? {
      SetEnabledEffect(s.stream.value, Audio, !s.micOn);
      SetEnabledKeeps(s.stream.value, Audio, !s.micOn, Video, s.camOn);
    }
  }

  lemma ToggleCamInv(s: State)
    requires Inv(s)
    ensures Inv(ToggleCam(s))
  {
    if s.stream.Some? {
      SetEnabledEffect(s.stream.value, Video, !s.camOn);
      SetEnabledKeeps(s.stream.value, Video, !s.camOn, Audio, s.micOn);
    }
  }

  lemma UnmountInv(s: State)
    requires Inv(s)
    ensures Inv(Unmount(s))
  {
  }

  lemma StepInv(s: State, e: Event)
    requires Inv(s)
    ensures Inv(Step(s, e))
  {
    if s.mounted {
      match e
      case StartPressed(acq) => if CanStart(s) { StartCallInv(s, acq); }
      case IntervalFired => if s.scheduled != {} { TickInv(s); }
      case EndPressed => EndCallInv(s);
      case MicPressed => ToggleMicInv(s);
      case CamPressed => ToggleCamInv(s);
      case Unmounted => UnmountInv(s);
    }
  }

  lemma {:induction false} RunInv(s: State, es: seq<Event>)
    requires Inv(s)
    ensures Inv(Run(s, es))
    decreases |es|
  {
    if es != [] {
      StepInv(s, es[0]);
      RunInv(Step(s, es[0]), es[1..]);
    }
  }

  /** Whatever happens after mount: while in the call the counter stays within
      the limit, at most one interval fires, it fires only while in the call,
      and the interval and the stream are both gone after unmount. */
  lemma Reachable(es: seq<Event>)
    ensures var s := Run(Initial(), es);
      && Inv(s)
      && (s.inCall && s.mounted ==> s.duration <= LimitSeconds)
      && |s.scheduled| <= 1
      && (s.scheduled != {} ==> s.mounted && s.inCall)
      && (!s.mounted ==> s.scheduled == {} && s.stream == None)
  {
    InitialInv();
    RunInv(Initial(), es);
  }

  /** Every event of the code as written keeps CoreInv. */
  lemma StepAsWrittenCoreInv(s: State, e: Event)
    requires CoreInv(s)
    ensures CoreInv(StepAsWritten(s, e))
  {
    if s.mounted {
      match e
      case StartPressed(acq) =>
      case IntervalFired =>
      case EndPressed =>
      case MicPressed =>
        if s.stream.Some? { SetEnabledEffect(s.stream.value, Audio, !s.micOn); }
      case CamPressed =>
        if s.stream.Some? { SetEnabledEffect(s.stream.value, Video, !s.camOn); }
      case Unmounted =>
    }
  }

  lemma {:induction false} RunAsWrittenCoreInv(s: State, es: seq<Event>)
    requires CoreInv(s)
    ensures CoreInv(RunAsWritten(s, es))
    decreases |es|
  {
    if es != [] {
      StepAsWrittenCoreInv(s, es[0]);
      RunAsWrittenCoreInv(StepAsWritten(s, es[0]), es[1..]);
    }
  }

  /** The guarantees of Reachable, for the code as written: the counter stays
      within the limit, at most one interval fires and only while in the call,
      and nothing is held after unmount. Only the agreement of the tracks with
      the flags is lost. */
  lemma ReachableAsWritten(es: seq<Event>)
    ensures var s := RunAsWritten(Initial(), es);
      && CoreInv(s)
      && (s.inCall && s.mounted ==> s.duration <= LimitSeconds)
      && |s.scheduled| <= 1
      && (s.scheduled != {} ==> s.mounted && s.inCall)
      && (!s.mounted ==> s.scheduled == {} && s.stream == None)
  {
    InitialInv();
    RunAsWrittenCoreInv(Initial(), es);
  }

  // ---------------------------------------------------------------- session clock

  /** A tick inside the limit adds exactly one second and keeps the call on. */
  lemma TickCounts(s: State)
    requires Inv(s) && s.mounted && s.inCall && s.duration < LimitSeconds
    ensures Step(s, IntervalFired) == s.(duration := s.duration + 1)
    ensures Step(s, IntervalFired).inCall && Inv(Step(s, IntervalFired))
  {
  }

  /** A tick at the limit ends the call: no increment, counter and interval cleared, stream released. */
  lemma TickAtLimitEnds(s: State)
    requires Inv(s) && s.mounted && s.inCall && s.duration >= LimitSeconds
    ensures s.duration == LimitSeconds
    ensures Step(s, IntervalFired) == EndCall(s)
    ensures var r := Step(s, IntervalFired);
      !r.inCall && r.duration == 0 && r.timerRef == None && r.scheduled == {} && r.stream == None
  {
  }

  /** n ticks within the limit add n seconds and change nothing else. */
  lemma {:induction false} TicksCount(s: State, n: nat)
    requires Inv(s) && s.mounted && s.inCall && s.duration + n <= LimitSeconds
    ensures Run(s, Ticks(n)) == s.(duration := s.duration + n)
    decreases n
  {
    if n > 0 {
      var s1 := Step(s, IntervalFired);
      TickCounts(s);
      assert Ticks(n)[0] == IntervalFired;
      assert Ticks(n)[1..] == Ticks(n - 1);
      TicksCount(s1, n - 1);
    }
  }

  /** A call that has just started runs for exactly LimitSeconds ticks and is ended by the next one. */
  lemma EndsAtLimit(s: State, acq: Acquisition)
    requires Inv(s) && s.mounted && CanStart(s)
    ensures var c := StartCall(s, acq);
      c.inCall ==>
        && Run(c, Ticks(LimitSeconds)).inCall
        && Run(c, Ticks(LimitSeconds)).duration == LimitSeconds
        && !Run(c, Ticks(LimitSeconds + 1)).inCall
        && Run(c, Ticks(LimitSeconds + 1)).scheduled == {}
  {
    var c := StartCall(s, acq);
    StartCallInv(s, acq);
    if c.inCall {
      TicksCount(c, LimitSeconds);
      var full := Run(c, Ticks(LimitSeconds));
      assert Ticks(LimitSeconds + 1) == Ticks(LimitSeconds) + [IntervalFired];
      RunAppend(c, Ticks(LimitSeconds), [IntervalFired]);
      TickAtLimitEnds(full);
    }
  }

  lemma {:induction false} RunAppend(s: State, xs: seq<Event>, ys: seq<Event>)
    ensures Run(s, xs + ys) == Run(Run(s, xs), ys)
    decreases |xs|
  {
    if xs == [] {
      assert xs + ys == ys;
    } else {
      assert (xs + ys)[0] == xs[0];
      assert (xs + ys)[1..] == xs[1..] + ys;
      RunAppend(Step(s, xs[0]), xs[1..], ys);
    }
  }

  /** While in the call the on-screen clock is always "MM:SS", at most "30:00", and reads back as the counter. */
  lemma ClockInCall(s: State)
    requires Inv(s) && s.mounted && s.inCall
    ensures var r := DurationFormat.FormatDuration(s.duration);
      |r| == 5 && r[2] == ':' && DurationFormat.ParseClock(r) == Some(s.duration)
  {
    DurationFormat.FormatDurationShape(s.duration);
    DurationFormat.FormatDurationRoundTrip(s.duration);
  }

  // ---------------------------------------------------------------- acquisition outcomes

  /** A granted acquisition: error cleared, stream stored, counter reset, call on, exactly one new interval. */
  lemma StartGranted(s: State, kinds: seq<Kind>)
    requires Inv(s) && s.mounted && CanStart(s)
    ensures var r := StartCall(s, Granted(kinds));
      && r.permissionError == None
      && r.stream == Some(AcquiredTracks(kinds, s.micOn, s.camOn))
      && r.duration == 0 && r.inCall && !r.connecting
      && s.scheduled == {}
      && r.timerRef == Some(s.nextInterval) && r.scheduled == {s.nextInterval}
      && r.micOn == s.micOn && r.camOn == s.camOn
  {
  }

  /** A denied acquisition: back to idle with the fixed message, nothing stored, no interval, and start enabled again. */
  lemma StartDenied(s: State)
    requires Inv(s) && s.mounted && CanStart(s)
    ensures var r := StartCall(s, Denied);
      && !r.connecting && !r.inCall
      && r.stream == None && r.timerRef == None && r.scheduled == {}
      && r.permissionError == Some(PermissionMessage) && |PermissionMessage| > 0
      && Inv(r) && r.mounted && CanStart(r)
  {
  }

  /** After a denial a later attempt that is granted starts the call cleanly. */
  lemma RetryAfterDenial(s: State, kinds: seq<Kind>)
    requires Inv(s) && s.mounted && CanStart(s)
    ensures var r := Run(s, [StartPressed(Denied), StartPressed(Granted(kinds))]);
      r.inCall && r.permissionError == None && r.stream.Some? && Inv(r)
  {
    var d := StartCall(s, Denied);
    StartDenied(s);
    StartCallInv(d, Granted(kinds));
    assert Run(s, [StartPressed(Denied), StartPressed(Granted(kinds))])
        == Run(d, [StartPressed(Granted(kinds))]);
  }

  // ---------------------------------------------------------------- teardown

  /** After endCall the call is off, the counter 0, the stream and the interval gone; the flags and the message stay. */
  lemma EndCallTearsDown(s: State)
    requires Inv(s) && s.mounted
    ensures var r := EndCall(s);
      && !r.inCall && r.duration == 0 && r.stream == None
      && r.timerRef == None && r.scheduled == {}
      && r.mounted && r.micOn == s.micOn && r.camOn == s.camOn && r.permissionError == s.permissionError
  {
  }

  /** A second endCall finds both refs null and changes nothing. */
  lemma EndCallIdempotent(s: State)
    ensures EndCall(EndCall(s)) == EndCall(s)
  {
  }

  /** Unmount releases the stream and every interval, from any state, and nothing happens afterwards. */
  lemma UnmountReleases(s: State, e: Event)
    requires Inv(s) && s.mounted
    ensures var r := Unmount(s);
      !r.mounted && r.stream == None && r.scheduled == {} && Step(r, e) == r
  {
  }

  /** Acquisition granted, then unmount before any tick: nothing is left behind. */
  lemma StartThenUnmount(s: State, kinds: seq<Kind>)
    requires Inv(s) && s.mounted && CanStart(s)
    ensures var r := Run(s, [StartPressed(Granted(kinds)), Unmounted]);
      r.stream == None && r.scheduled == {} && !r.mounted
  {
    var c := StartCall(s, Granted(kinds));
    assert Run(s, [StartPressed(Granted(kinds)), Unmounted]) == Run(c, [Unmounted]);
  }

  // ---------------------------------------------------------------- track gate

  /** toggleMic flips micOn, keeps camOn, sets every audio track to the new flag and leaves the video tracks alone. */
  lemma ToggleMicEffect(s: State)
    ensures var r := ToggleMic(s);
      && r.micOn == !s.micOn && r.camOn == s.camOn
      && r.stream.Some? == s.stream.Some?
      && (s.stream.Some? ==>
            && |r.stream.value| == |s.stream.value|
            && KindEnabled(r.stream.value, Audio, r.micOn)
            && forall i :: 0 <= i < |s.stream.value| && s.stream.value[i].kind == Video ==>
                 r.stream.value[i] == s.stream.value[i])
  {
    if s.stream.Some? {
      SetEnabledEffect(s.stream.value, Audio, !s.micOn);
    }
  }

  lemma ToggleCamEffect(s: State)
    ensures var r := ToggleCam(s);
      && r.camOn == !s.camOn && r.micOn == s.micOn
      && r.stream.Some? == s.stream.Some?
      && (s.stream.Some? ==>
            && |r.stream.value| == |s.stream.value|
            && KindEnabled(r.stream.value, Video, r.camOn)
            && forall i :: 0 <= i < |s.stream.value| && s.stream.value[i].kind == Audio ==>
                 r.stream.value[i] == s.stream.value[i])
  {
    if s.stream.Some? {
      SetEnabledEffect(s.stream.value, Video, !s.camOn);
    }
  }

  /** Toggling the microphone twice restores the flag and every track. */
  lemma ToggleMicTwice(s: State)
    requires Inv(s)
    ensures ToggleMic(ToggleMic(s)) == s
  {
    if s.stream.Some? {
      SetEnabledRestores(s.stream.value, Audio, s.micOn);
    }
  }

  lemma ToggleCamTwice(s: State)
    requires Inv(s)
    ensures ToggleCam(ToggleCam(s)) == s
  {
    if s.stream.Some? {
      SetEnabledRestores(s.stream.value, Video, s.camOn);
    }
  }

  /** The two toggles commute. */
  lemma TogglesCommute(s: State)
    ensures ToggleMic(ToggleCam(s)) == ToggleCam(ToggleMic(s))
  {
    if s.stream.Some? {
      SetEnabledCommutes(s.stream.value, !s.micOn, !s.camOn);
    }
  }

  // ---------------------------------------------------------------- the flags / tracks mismatch

  /** As written, a call started with the microphone toggled off carries an
      enabled audio track while micOn is false, and toggling twice does not
      bring the track back. The state is reached by two events from mount. */
  lemma MicOffStartAsWritten()
    ensures var idle := ToggleMic(Initial());
      var r := StartCallAsWritten(idle, Granted([Audio]));
      && !r.micOn && r.inCall
      && r.stream == Some([LiveTrack(Audio)]) && r.stream.value[0].enabled
      && !TracksFollowFlags(r)
      && ToggleMic(ToggleMic(r)) != r
      && RunAsWritten(Initial(), [MicPressed, StartPressed(Granted([Audio]))]) == r
  {
    var idle := ToggleMic(Initial());
    var r := StartCallAsWritten(idle, Granted([Audio]));
    assert RunAsWritten(Initial(), [MicPressed, StartPressed(Granted([Audio]))])
        == RunAsWritten(idle, [StartPressed(Granted([Audio]))]);
    assert LiveTracks([Audio]) == [LiveTrack(Audio)];
    assert SetEnabled([LiveTrack(Audio)], Audio, true) == [LiveTrack(Audio)];
    assert SetEnabled([LiveTrack(Audio)], Audio, false) == [Track(Audio, false, false)];
  }

  /** Corrected, the same sequence yields a disabled audio track, matching micOn. */
  lemma MicOffStartCorrected()
    ensures var idle := ToggleMic(Initial());
      var r := StartCall(idle, Granted([Audio]));
      && !r.micOn && r.inCall
      && r.stream == Some([Track(Audio, false, false)])
      && Inv(r) && ToggleMic(ToggleMic(r)) == r
  {
    var idle := ToggleMic(Initial());
    assert LiveTracks([Audio]) == [LiveTrack(Audio)];
    assert SetEnabled([LiveTrack(Audio)], Audio, false) == [Track(Audio, false, false)];
    assert SetEnabled([Track(Audio, false, false)], Video, true) == [Track(Audio, false, false)];
    InitialInv();
    ToggleMicInv(Initial());
    StartCallInv(idle, Granted([Audio]));
    ToggleMicTwice(StartCall(idle, Granted([Audio])));
  }

}
