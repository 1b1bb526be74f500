# Call session of the private video-call page

This project models the call session logic of the page `src/pages/Index.tsx`, and proves properties of that model, in Dafny. The page simulates a one-to-one video call. It acquires the visitor's camera and microphone, counts the call's elapsed seconds once per second, and ends the call automatically at a fixed 30-minute limit. It lets the visitor mute the microphone or the camera, and releases the devices and the timer on hang-up, on timeout and on unmount. It also renders the elapsed time as `MM:SS`.

The model has three layers:

- `Media` (media.dfy) treats a stream as a sequence of tracks. Each track has a kind (audio or video), an `enabled` flag and a `stopped` flag. `SetEnabled` is the `forEach(t => t.enabled = on)` over the tracks of one kind. `StopAll` is the `forEach(track => track.stop())`.
- `CallState` (call_state.dfy) holds the page's state as a value. That covers the React state (`inCall`, `connecting`, `duration`, `mediaState`, `permissionError`), the refs (`selfStreamRef`, `timerRef`) and the browser's table of live intervals. Each handler is a transition function on this value: `StartCall`, `RequestMedia`, `Tick`, `EndCall`, `StopMediaTracks`, `ClearTimerRef`, `Unmount`, `ToggleMic` and `ToggleCam`.
  - `Step` and `Run` apply a sequence of UI events.
  - `StepAsWritten` and `RunAsWritten` do the same with the `startCall` of the code as written (see Findings).
  - `CoreInv` is the invariant that every reachable state satisfies under either version. `Inv` adds that the tracks follow the mic and cam flags, which holds only for the corrected version.
  - The lemmas state what the page promises.
- `CallSession.Session` (call_session.dfy) is the page as an object. Its fields are the state and the refs. The stream is an `array<Track>`, and the `forEach` loops update it in place (`StopTracks`, `EnableTracks`). Each method ensures `State() == CallState.X(old(State()))`, and each handler method (`StartCall`, `Tick`, `EndCall`, `Unmount`, `ToggleMic`, `ToggleCam`) also keeps `Valid()`. The teardown methods also ensure that every track of the stream they released is stopped.

Each handler is treated as one atomic step. React runs the effect that depends on `inCall` after the render in which `inCall` changed. The model folds that effect into the transition that flips `inCall`:

- The successful `startCall` arms the interval.
- `endCall` runs the effect's cleanup after its own clear. The cleanup then finds `timerRef` already null.

On unmount, React runs the cleanups in declaration order:

1. The cleanup of the `inCall` effect. It is registered only while the call is on.
2. The cleanup of the mount effect. It stops the tracks and clears the interval, but leaves `timerRef` set.

The outcome of `getUserMedia` is a parameter of `StartCall`: `Granted(kinds)` or `Denied`. A granted stream's tracks start enabled and live. The browser's intervals are modelled as a set of positive ids. `clearInterval` removes an id from the set, so clearing an id that was already cleared is a silent no-op.

Facts about the code that shape the model:

- The call limit is the constant `CALL_DURATION_LIMIT_MINUTES` at src/pages/Index.tsx:13. The code reads no other duration source.
- A tick ends the call only once the counter already stands at 1800. So a call lasts 1800 counted seconds and is ended by the 1801st tick.
- Ending a call resets `inCall` to false and `duration` to 0. There is no other record that a call took place.
- The start control is disabled while `connecting || inCall` (src/pages/Index.tsx:339), so `StartCall` requires the idle state.

## Model

| member | source | states |
|---|---|---|
| CallSession.Session.constructor | src/pages/Index.tsx:16-24 | the initial state: idle, not connecting, counter 0, mic and cam on, no error, no stream, no timer |
| CallSession.Session.RequestMedia | src/pages/Index.tsx:74-102 | the error is cleared first. On success a fresh stream is stored, its audio tracks gated by `micOn` and its video tracks by `camOn` (the corrected requestMedia; the code as written is `CallState.RequestMediaAsWritten`), and the result is true. On failure the fixed permission message is set, nothing is stored and the result is false |
| CallSession.Session.StartCall | src/pages/Index.tsx:104-116 | from the idle state it performs requestMedia. On success it resets the counter, turns the call on, turns `connecting` off and arms one interval. On failure it only turns `connecting` back off. It keeps the invariant |
| CallSession.Session.ArmTimer | src/pages/Index.tsx:52-55 | the `inCall` effect: `setInterval` gets a fresh id, stores it in `timerRef` and schedules it |
| CallSession.Session.ClearTimerRef | src/pages/Index.tsx:129-132 | the guarded clear: if `timerRef` is set, its interval is unscheduled and the ref is nulled; otherwise nothing changes |
| CallSession.Session.ClearRefInterval | src/pages/Index.tsx:141-143 | the unmount cleanup's clear: the ref's interval is unscheduled and the ref is left as it is |
| CallSession.Session.Tick | src/pages/Index.tsx:55-63 | the interval callback: at or past the limit it ends the call, otherwise it adds one second. It keeps the invariant |
| CallSession.Session.StopMediaTracks | src/pages/Index.tsx:118-123 | every track of the held stream is stopped and the reference becomes null; with no stream nothing changes |
| CallSession.Session.EndCall | src/pages/Index.tsx:125-136 | the call is off, the counter is 0, the stream is dropped with all its tracks stopped, and the timer is cleared. It keeps the invariant |
| CallSession.Session.Unmount | src/pages/Index.tsx:138-145 | both effect cleanups: every track is stopped, the stream is dropped and no interval is left scheduled |
| CallSession.Session.ToggleMic | src/pages/Index.tsx:147-153 | `micOn` is negated, and every audio track of a held stream gets the new value |
| CallSession.Session.ToggleCam | src/pages/Index.tsx:155-161 | `camOn` is negated, and every video track of a held stream gets the new value |
| CallSession.StopTracks | src/pages/Index.tsx:120 | the in-place loop leaves the array equal to `StopAll` of its old contents |
| CallSession.EnableTracks | src/pages/Index.tsx:151 | the in-place loop leaves the array equal to `SetEnabled` of its old contents for that kind |
| CallSession.RunOut | src/pages/Index.tsx:55-63 | a call started with a granted stream and left to run ends after exactly 1801 ticks, with the counter at 0, no stream and no interval |
| Media.SetEnabledAt | src/pages/Index.tsx:151 | setting the flag acts track by track: same length, each track gated in place |
| Media.SetEnabledEffect | src/pages/Index.tsx:151 | afterwards every track of the kind has the new flag. Tracks of the other kind and all `stopped` flags are unchanged |
| Media.SetEnabledKeeps | src/pages/Index.tsx:159 | gating one kind keeps live tracks live and keeps the other kind's flags |
| Media.SetEnabledRestores | src/pages/Index.tsx:147-153 | if every track of a kind had the flag `on`, setting `!on` and then `on` restores the stream |
| Media.SetEnabledCommutes | src/pages/Index.tsx:147-161 | gating audio and gating video can be done in either order |
| Media.StopAllAt | src/pages/Index.tsx:120 | stopping acts track by track and only sets `stopped` |
| Media.StopAllStops | src/pages/Index.tsx:120 | after stopping, every track is stopped, with its kind and `enabled` flag kept |
| Media.StopAllIdempotent | src/pages/Index.tsx:118-123 | stopping an already stopped stream changes nothing |
| Media.AcquiredTracksFollowFlags | src/pages/Index.tsx:77-81 | a fresh stream gated by the flags is live, and its audio and video tracks agree with `micOn` and `camOn` |
| CallState.InitialInv | src/pages/Index.tsx:16-24 | the initial state satisfies the invariant, has mic and cam on, and can start a call |
| CallState.StartCallInv | src/pages/Index.tsx:104-116 | startCall keeps the invariant |
| CallState.EndCallInv | src/pages/Index.tsx:125-136 | endCall keeps the invariant |
| CallState.TickInv | src/pages/Index.tsx:55-63 | the tick keeps the invariant, including `duration <= 1800` while the call is on |
| CallState.ToggleMicInv | src/pages/Index.tsx:147-153 | toggleMic keeps the invariant, so the audio tracks keep following `micOn` |
| CallState.ToggleCamInv | src/pages/Index.tsx:155-161 | toggleCam keeps the invariant |
| CallState.UnmountInv | src/pages/Index.tsx:138-145 | unmount keeps the invariant |
| CallState.StepInv | src/pages/Index.tsx:52-161 | every UI event keeps the invariant |
| CallState.RunInv | src/pages/Index.tsx:52-161 | every sequence of events keeps the invariant |
| CallState.StepAsWrittenCoreInv | src/pages/Index.tsx:52-161 | with the code as written, every UI event keeps `CoreInv` |
| CallState.RunAsWrittenCoreInv | src/pages/Index.tsx:52-161 | with the code as written, every sequence of events keeps `CoreInv` |
| CallState.ReachableAsWritten | src/pages/Index.tsx:13 | the guarantees of `Reachable` for the code as written: the counter stays within 1800 while in the call, at most one interval is scheduled and only while mounted and in the call, and nothing is held after unmount |
| CallState.Reachable | src/pages/Index.tsx:13 | for the corrected program, after any events from mount: the counter stays within 1800 while in the call, and at most one interval is scheduled. It is scheduled only while mounted and in the call. After unmount no interval and no stream remain |
| CallState.TickCounts | src/pages/Index.tsx:56-61 | a tick while in the call with `duration < 1800` adds exactly one second, changes nothing else and leaves the call on |
| CallState.TickAtLimitEnds | src/pages/Index.tsx:57-60 | a tick at the limit (where the counter is exactly 1800) acts as endCall: the call is off, the counter and the timer are cleared and the stream is released |
| CallState.TicksCount | src/pages/Index.tsx:55-63 | n ticks within the limit add exactly n seconds |
| CallState.EndsAtLimit | src/pages/Index.tsx:13 | a call that has just started is still on after 1800 ticks, with the counter at 1800. The next tick ends it and leaves no interval |
| CallState.ClockInCall | src/pages/Index.tsx:211 | while in the call the displayed clock is five characters with ':' at index 2, and it reads back as the counter |
| CallState.StartGranted | src/pages/Index.tsx:76-114 | a granted acquisition clears the error and stores the stream gated by the flags. It resets the counter, turns the call on and `connecting` off, and arms exactly one interval where none existed before |
| CallState.StartDenied | src/pages/Index.tsx:90-109 | a denied acquisition leaves the call off and `connecting` off. It stores no stream and no timer and sets the fixed non-empty message. Start is enabled again |
| CallState.RetryAfterDenial | src/pages/Index.tsx:104-116 | after a denial, a granted retry starts the call, clears the error and stores a stream |
| CallState.EndCallTearsDown | src/pages/Index.tsx:125-132 | after endCall: call off, counter 0, no stream, no timer, no interval; flags and message unchanged |
| CallState.EndCallIdempotent | src/pages/Index.tsx:118-132 | a second endCall yields the same state |
| CallState.UnmountReleases | src/pages/Index.tsx:138-145 | unmount from any reachable state releases the stream and every interval, and later events change nothing |
| CallState.StartThenUnmount | src/pages/Index.tsx:138-145 | a granted start followed by unmount, before any tick, leaves no stream and no interval |
| CallState.ToggleMicEffect | src/pages/Index.tsx:147-153 | `micOn` is negated and `camOn` kept. Every audio track gets the new flag and video tracks are untouched |
| CallState.ToggleCamEffect | src/pages/Index.tsx:155-161 | `camOn` is negated and `micOn` kept. Every video track gets the new flag and audio tracks are untouched |
| CallState.ToggleMicTwice | src/pages/Index.tsx:147-153 | toggling the mic twice restores the flag and every track |
| CallState.ToggleCamTwice | src/pages/Index.tsx:155-161 | toggling the camera twice restores the flag and every track |
| CallState.TogglesCommute | src/pages/Index.tsx:147-161 | toggling mic then cam equals toggling cam then mic |
| CallState.MicOffStartAsWritten | src/pages/Index.tsx:74-89 | as written: after two events from mount (a mic toggle, then a granted start), the new audio track is enabled while `micOn` is false. The tracks no longer follow the flags, and two toggles do not restore the stream |
| CallState.MicOffStartCorrected | src/pages/Index.tsx:74-89 | corrected: the same sequence stores a disabled audio track, keeps the invariant, and two toggles restore the state |
| DurationFormat.DecimalRoundTrip | src/pages/Index.tsx:164-167 | the decimal text of n is non-empty, all digits, one digit below 10 and at most two below 100. It reads back as n |
| DurationFormat.LeadingZero | src/pages/Index.tsx:166 | a padding '0' does not change the value read |
| DurationFormat.Pad2RoundTrip | src/pages/Index.tsx:164-167 | a padded field has at least two digits, exactly two below 100, and reads back as n |
| DurationFormat.FormatDurationRoundTrip | src/pages/Index.tsx:163-169 | decoding `formatDuration(s)` gives back s, for every s |
| DurationFormat.FormatDurationInjective | src/pages/Index.tsx:163-169 | distinct durations render differently |
| DurationFormat.FormatDurationShape | src/pages/Index.tsx:163-169 | for s below 6000 the result has length 5, has ':' at index 2 and has digits elsewhere |
| DurationFormat.FormatDurationExamples | src/pages/Index.tsx:163-169 | 0 renders as "00:00", 75 as "01:15" and 1800 as "30:00" |

The transition functions of `CallState` have no contracts of their own. Each is the specification of the `Session` method of the same name, and its properties are the lemmas above.

## Findings

| source | as written | input that shows it | evidently intended | confidence | as-written member | corrected member |
|---|---|---|---|---|---|---|
| src/pages/Index.tsx:74-89 | requestMedia stores the new stream with every track enabled. It ignores `mediaState`, which the toggles flip even when no stream is held, and which `endCall` does not reset | toggleMic while idle, then startCall with a granted audio track: `micOn` is false, so the control shows the mic as off, but the audio track is enabled. Two toggles then leave the track disabled instead of restoring it | the tracks of a new stream follow `micOn` and `camOn`, as they do after every toggle | medium, not executed | CallState.StartCallAsWritten (shown by CallState.MicOffStartAsWritten) | CallSession.Session.StartCall (CallState.StartCall, proved by CallState.StartCallInv, CallState.ToggleMicTwice and CallState.MicOffStartCorrected) |

## Left out

- The await in `startCall` is not modelled. Handlers run atomically, so events that arrive while `connecting` is true are not modelled. Examples are a hang-up or a toggle pressed before the permission prompt is answered, and a successful acquisition that lands after such a hang-up.
- React's batching and render scheduling are not modelled.
- CallSession.Session.Tick: at the limit the model takes the counter 0 that `endCall` sets. The code may leave 1800 instead. At src/pages/Index.tsx:57-59 the updater calls `endCall`, whose `setDuration(0)` is queued first, and then the updater's own return value 1800 is queued after it. A plain sequential reading of the handler also gives 1800. The side panel (src/pages/Index.tsx:331) would then show "30:00" after a timeout. The same holds for `CallState.Tick`.
- Toasts, `console.error`, the `endCall` reason text (it only feeds a toast), the preview element binding (`srcObject`, `muted`, `play()`), the document title and meta tags, and all rendering are left out. They are UI output with no effect on the session state.
- The `getUserMedia` constraints (640x360 video, audio) are not modelled. Which tracks the browser returns is the `Granted(kinds)` input.
- src/pages/Admin.tsx is not part of this model: it is authentication, storage and database calls over the network.
- src/components/ui/button.tsx is not part of this model: it is styling only.
- src/App.tsx (`CallScreen`) is not part of this model. It is a second `getUserMedia` wrapper whose cleanup stops the tracks, which is the same teardown as `StopMediaTracks`.
- CallSession.Session.RequestMedia: it gates the new tracks by `micOn` and `camOn`, the correction of the Findings table. The code as written stores the stream as `getUserMedia` returns it (src/pages/Index.tsx:81), which is `CallState.RequestMediaAsWritten`.
- CallSession.Session.StartCall: it follows the corrected requestMedia of the Findings table. The code as written is `CallState.StartCallAsWritten`, whose event-level guarantees are `CallState.ReachableAsWritten`.
