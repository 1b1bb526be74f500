/**
  The call page of src/pages/Index.tsx as an object: its React state and refs
  are fields that the handlers assign, the stream is an array of tracks that
  the `forEach` loops update in place, and the browser's interval table is a
  pair of fields beside them. Each method is proved against the transition of
  the same name in CallState, whose properties are proved there.
 */
module CallSession {
  import opened Options
  import opened Media
  import CallState

  /** `getTracks().forEach(track => track.stop())` on the stream of `a`. */
  method StopTracks(a: array<Track>)
    modifies a
    ensures a[..] == StopAll(old(a[..]))
  {
    ghost var before := a[..];
    var i := 0;
    while i < a.Length
      invariant 0 <= i <= a.Length
      invariant forall j :: 0 <= j < i ==> a[j] == before[j].(stopped := true)
      invariant forall j :: i <= j < a.Length ==> a[j] == before[j]
    {
      a[i] := a[i].(stopped := true);
      i := i + 1;
    }
    StopAllLength(before);
    forall j | 0 <= j < a.Length
      ensures a[..][j] == StopAll(before)[j]
    {
      StopAllAt(before, j);
    }
  }

  /** `getAudioTracks()` (k = Audio) or `getVideoTracks()` (k = Video) `.forEach(t => t.enabled = on)`. */
  method EnableTracks(a: array<Track>, k: Kind, on: bool)
    modifies a
    ensures a[..] == SetEnabled(old(a[..]), k, on)
  {
    ghost var before := a[..];
    var i := 0;
    while i < a.Length
      invariant 0 <= i <= a.Length
      invariant forall j :: 0 <= j < i ==> a[j] == Gate(before[j], k, on)
      invariant forall j :: i <= j < a.Length ==> a[j] == before[j]
    {
      if a[i].kind == k {
        a[i] := a[i].(enabled := on);
      }
      i := i + 1;
    }
    SetEnabledLength(before, k, on);
    forall j | 0 <= j < a.Length
      ensures a[..][j] == SetEnabled(before, k, on)[j]
    {
      SetEnabledAt(before, k, on, j);
    }
  }

  class Session {
    var mounted: bool
    var inCall: bool
    var connecting: bool
    var duration: nat
    var micOn: bool
    var camOn: bool
    var permissionError: Option<string>
    /** selfStreamRef.current */
    var stream: array?<Track>
    /** timerRef.current */
    var timerRef: Option<CallState.IntervalId>
    /** The browser's intervals that still fire, and the id it hands out next. */
    var scheduled: set<CallState.IntervalId>
    var nextInterval: CallState.IntervalId

    /** The session as a CallState value. */
    function State(): CallState.State
      reads this, stream
    {
      CallState.State(mounted, inCall, connecting, duration, micOn, camOn, permissionError,
                      if stream == null then None else Some(stream[..]),
                      timerRef, scheduled, nextInterval)
    }

    ghost predicate Valid()
      reads this, stream
    {
      CallState.Inv(State())
    }

    /** The component's first render. */
    constructor ()
      ensures Valid() && State() == CallState.Initial()
    {
      mounted, inCall, connecting, duration := true, false, false, 0;
      micOn, camOn, permissionError := true, true, None;
      stream, timerRef, scheduled, nextInterval := null, None, {}, 1;
    }

    /** `timerRef.current = window.setInterval(...)`: the `inCall` effect once the call is on. */
    method ArmTimer()
      modifies this`timerRef, this`scheduled, this`nextInterval
      ensures State() == CallState.SetInterval(old(State()))
    {
      var id := nextInterval;
      scheduled := scheduled + {id};
      nextInterval := id + 1;
      timerRef := Some(id);
    }

    /** `if (timerRef.current) { clearInterval(timerRef.current); timerRef.current = null; }` */
    method ClearTimerRef()
      modifies this`timerRef, this`scheduled
      ensures State() == CallState.ClearTimerRef(old(State()))
    {
      if timerRef.Some? {
        scheduled := scheduled - {timerRef.value};
        timerRef := None;
      }
    }

    /** `if (timerRef.current) { clearInterval(timerRef.current); }`, as the unmount cleanup does it. */
    method ClearRefInterval()
      modifies this`scheduled
      ensures State() == CallState.ClearRefInterval(old(State()))
    {
      if timerRef.Some? {
        scheduled := scheduled - {timerRef.value};
      }
    }

    /** requestMedia, the outcome of `getUserMedia` given as `acq`. The new
        tracks are gated by the current mic and cam flags, so that the flags and
        the tracks agree from the start. */
    method RequestMedia(acq: CallState.Acquisition) returns (ok: bool)
      modifies this`permissionError, this`stream
      ensures (State(), ok) == CallState.RequestMedia(old(State()), acq)
      ensures ok ==> stream != null && fresh(stream)
    {
      permissionError := None;
      match acq
      case Granted(kinds) =>
        var a := new Track[|kinds|](i requires 0 <= i < |kinds| => LiveTrack(kinds[i]));
        assert a[..] == LiveTracks(kinds);
        EnableTracks(a, Audio, micOn);
        EnableTracks(a, Video, camOn);
        stream := a;
        ok := true;
      case Denied =>
        permissionError := Some(CallState.PermissionMessage);
        ok := false;
    }

    /** startCall; reachable only while the start control is enabled. */
    method StartCall(acq: CallState.Acquisition)
      requires Valid() && mounted && !connecting && !inCall
      modifies this
      ensures Valid()
      ensures State() == CallState.StartCall(old(State()), acq)
      ensures stream != null ==> fresh(stream)
    {
      CallState.StartCallInv(State(), acq);
      connecting := true;
      var ok := RequestMedia(acq);
      if !ok {
        connecting := false;
        return;
      }
      duration := 0;
      inCall := true;
      connecting := false;
      ArmTimer();
    }

    /** stopMediaTracks: stop every track still held, then drop the reference. */
    method StopMediaTracks()
      modifies this`stream, stream
      ensures stream == null
      ensures old(stream) != null ==> old(stream)[..] == StopAll(old(stream[..]))
      ensures State() == CallState.StopMediaTracks(old(State()))
    {
      if stream != null {
        StopTracks(stream);
        stream := null;
      }
    }

    /** endCall (the reason only feeds a toast); then the `inCall` effect's cleanup. */
    method EndCall()
      requires Valid()
      modifies this, stream
      ensures Valid()
      ensures State() == CallState.EndCall(old(State()))
      ensures old(stream) != null ==> AllStopped(old(stream)[..]) && old(stream)[..] == StopAll(old(stream[..]))
    {
      CallState.EndCallInv(State());
      ghost var held := if stream == null then [] else stream[..];
      var wasInCall := inCall;
      inCall := false;
      duration := 0;
      StopMediaTracks();
      ClearTimerRef();
      if wasInCall {
        ClearTimerRef();
      }
      StopAllStops(held);
    }

    /** The interval callback; the browser runs it only while an interval is scheduled. */
    method Tick()
      requires Valid() && mounted && scheduled != {}
      modifies this, stream
      ensures Valid()
      ensures State() == CallState.Tick(old(State()))
      ensures stream == null || stream == old(stream)
      ensures old(stream) != null && !inCall ==> AllStopped(old(stream)[..])
    {
      if duration >= CallState.LimitSeconds {
        EndCall();
      } else {
        CallState.TickInv(State());
        duration := duration + 1;
      }
    }

    /** The component leaves the page: the `inCall` effect's cleanup, then the mount effect's. */
    method Unmount()
      requires Valid() && mounted
      modifies this, stream
      ensures Valid()
      ensures State() == CallState.Unmount(old(State()))
      ensures old(stream) != null ==> AllStopped(old(stream)[..]) && old(stream)[..] == StopAll(old(stream[..]))
    {
      CallState.UnmountInv(State());
      ghost var held := if stream == null then [] else stream[..];
      if inCall {
        ClearTimerRef();
      }
      StopMediaTracks();
      ClearRefInterval();
      mounted := false;
      StopAllStops(held);
    }

    method ToggleMic()
      requires Valid()
      modifies this`micOn, stream
      ensures Valid()
      ensures State() == CallState.ToggleMic(old(State()))
    {
      CallState.ToggleMicInv(State());
      var next := !micOn;
      micOn := next;
      if stream != null {
        EnableTracks(stream, Audio, next);
      }
    }

    method ToggleCam()
      requires Valid()
      modifies this`camOn, stream
      ensures Valid()
      ensures State() == CallState.ToggleCam(old(State()))
    {
      CallState.ToggleCamInv(State());
      var next := !camOn;
      camOn := next;
      if stream != null {
        EnableTracks(stream, Video, next);
      }
    }
  }

  /** A whole call left to run out: start with a granted stream, let the
      interval fire until the call ends, and count the ticks. */
  method RunOut(kinds: seq<Kind>) returns (session: Session, ticks: nat)
    ensures session.Valid() && session.mounted
    ensures !session.inCall && session.duration == 0 && session.stream == null && session.scheduled == {}
    ensures ticks == CallState.LimitSeconds + 1
  {
    session := new Session();
    session.StartCall(CallState.Granted(kinds));
    ticks := 0;
    while session.inCall
      invariant fresh(session) && (session.stream != null ==> fresh(session.stream))
      invariant session.Valid() && session.mounted
      invariant session.inCall ==> session.duration == ticks
      invariant !session.inCall ==> ticks == CallState.LimitSeconds + 1
      invariant ticks <= CallState.LimitSeconds + 1
      decreases CallState.LimitSeconds + 1 - ticks
    {
      session.Tick();
      ticks := ticks + 1;
    }
  }
}
