/**
  The local capture stream handed out by the browser's `getUserMedia`: a
  sequence of audio and video tracks. A track is muted by clearing its
  `enabled` flag and released for good by `stop()`.
 */
module Media {

  datatype Kind = Audio | Video

  /** A MediaStreamTrack as far as the call page uses it. */
  datatype Track = Track(kind: Kind, enabled: bool, stopped: bool)

  /** A track as `getUserMedia` hands it out: enabled and live. */
  function LiveTrack(k: Kind): Track {
    Track(k, true, false)
  }

  /** The tracks of a freshly acquired stream with the given kinds. */
  function LiveTracks(kinds: seq<Kind>): seq<Track> {
    seq(|kinds|, i requires 0 <= i < |kinds| => LiveTrack(kinds[i]))
  }

  /** `t.enabled = on` applied to `t` when it is one of the tracks of kind `k`. */
  function Gate(t: Track, k: Kind, on: bool): Track {
    if t.kind == k then t.(enabled := on) else t
  }

  /** The stream after `getAudioTracks()` (k = Audio) or `getVideoTracks()`
      (k = Video) `.forEach(t => t.enabled = on)`. */
  function SetEnabled(ts: seq<Track>, k: Kind, on: bool): seq<Track> {
    if ts == [] then [] else [Gate(ts[0], k, on)] + SetEnabled(ts[1..], k, on)
  }

  /** The stream after `getTracks().forEach(track => track.stop())`. */
  function StopAll(ts: seq<Track>): seq<Track> {
    if ts == [] then [] else [ts[0].(stopped := true)] + StopAll(ts[1..])
  }

  /** Every track of kind `k` has `enabled == on`. */
  predicate KindEnabled(ts: seq<Track>, k: Kind, on: bool) {
    forall i :: 0 <= i < |ts| && ts[i].kind == k ==> ts[i].enabled == on
  }

  predicate NoneStopped(ts: seq<Track>) {
    forall i :: 0 <= i < |ts| ==> !ts[i].stopped
  }

  predicate AllStopped(ts: seq<Track>) {
    forall i :: 0 <= i < |ts| ==> ts[i].stopped
  }

  /** SetEnabled acts track by track: it keeps the length and gates each track in place. */
  lemma {:induction false} SetEnabledAt(ts: seq<Track>, k: Kind, on: bool, i: nat)
    requires i < |ts|
    ensures |SetEnabled(ts, k, on)| == |ts|
    ensures SetEnabled(ts, k, on)[i] == Gate(ts[i], k, on)
  {
    if i > 0 {
      SetEnabledAt(ts[1..], k, on, i - 1);
    } else if |ts| > 1 {
      SetEnabledAt(ts[1..], k, on, 0);
    }
  }

  lemma {:induction false} SetEnabledLength(ts: seq<Track>, k: Kind, on: bool)
    ensures |SetEnabled(ts, k, on)| == |ts|
  {
    if ts != [] {
      SetEnabledLength(ts[1..], k, on);
    }
  }

  /** After the forEach, every track of kind `k` is enabled exactly when `on`;
      tracks of the other kind and every `stopped` flag are as they were. */
  lemma {:induction false} SetEnabledEffect(ts: seq<Track>, k: Kind, on: bool)
    ensures |SetEnabled(ts, k, on)| == |ts|
    ensures KindEnabled(SetEnabled(ts, k, on), k, on)
    ensures forall i :: 0 <= i < |ts| ==>
      SetEnabled(ts, k, on)[i].kind == ts[i].kind &&
      SetEnabled(ts, k, on)[i].stopped == ts[i].stopped &&
      (ts[i].kind != k ==> SetEnabled(ts, k, on)[i] == ts[i])
  {
    SetEnabledLength(ts, k, on);
    forall i | 0 <= i < |ts|
      ensures SetEnabled(ts, k, on)[i] == Gate(ts[i], k, on)
    {
      SetEnabledAt(ts, k, on, i);
    }
  }

  /** Gating keeps live tracks live and does not disturb the other kind's flags. */
  lemma SetEnabledKeeps(ts: seq<Track>, k: Kind, on: bool, other: Kind, flag: bool)
    requires other != k
    ensures NoneStopped(ts) ==> NoneStopped(SetEnabled(ts, k, on))
    ensures KindEnabled(ts, other, flag) ==> KindEnabled(SetEnabled(ts, k, on), other, flag)
  {
    SetEnabledEffect(ts, k, on);
  }

  /** Flipping a kind away from `on` and back restores the stream, provided
      every track of that kind was at `on` to begin with. */
  lemma {:induction false} SetEnabledRestores(ts: seq<Track>, k: Kind, on: bool)
    requires KindEnabled(ts, k, on)
    ensures SetEnabled(SetEnabled(ts, k, !on), k, on) == ts
  {
    if ts != [] {
      assert KindEnabled(ts[1..], k, on) by {
        forall i | 0 <= i < |ts[1..]| && ts[1..][i].kind == k
          ensures ts[1..][i].enabled == on
        {
          assert ts[1..][i] == ts[i + 1];
        }
      }
      SetEnabledRestores(ts[1..], k, on);
    }
  }

  /** Gating audio and gating video touch disjoint tracks, so their order does not matter. */
  lemma {:induction false} SetEnabledCommutes(ts: seq<Track>, mic: bool, cam: bool)
    ensures SetEnabled(SetEnabled(ts, Audio, mic), Video, cam)
         == SetEnabled(SetEnabled(ts, Video, cam), Audio, mic)
  {
    if ts != [] {
      SetEnabledCommutes(ts[1..], mic, cam);
    }
  }

  /** Stopping acts track by track and touches nothing but the `stopped` flag. */
  lemma {:induction false} StopAllAt(ts: seq<Track>, i: nat)
    requires i < |ts|
    ensures |StopAll(ts)| == |ts|
    ensures StopAll(ts)[i] == ts[i].(stopped := true)
  {
    if i > 0 {
      StopAllAt(ts[1..], i - 1);
    } else if |ts| > 1 {
      StopAllAt(ts[1..], 0);
    }
  }

  lemma {:induction false} StopAllLength(ts: seq<Track>)
    ensures |StopAll(ts)| == |ts|
  {
    if ts != [] {
      StopAllLength(ts[1..]);
    }
  }

  /** After teardown every track is stopped, with its kind and enabled flag kept. */
  lemma StopAllStops(ts: seq<Track>)
    ensures |StopAll(ts)| == |ts| && AllStopped(StopAll(ts))
    ensures forall i :: 0 <= i < |ts| ==>
      StopAll(ts)[i].kind == ts[i].kind && StopAll(ts)[i].enabled == ts[i].enabled
  {
    StopAllLength(ts);
    forall i | 0 <= i < |ts|
      ensures StopAll(ts)[i] == ts[i].(stopped := true)
    {
      StopAllAt(ts, i);
    }
  }

  /** Stopping an already stopped stream changes nothing: `stop()` on an ended track is a no-op. */
  lemma {:induction false} StopAllIdempotent(ts: seq<Track>)
    ensures StopAll(StopAll(ts)) == StopAll(ts)
  {
    if ts != [] {
      StopAllIdempotent(ts[1..]);
    }
  }

  /** A fresh stream whose tracks are then gated by the page's mic and cam flags. */
  lemma AcquiredTracksFollowFlags(kinds: seq<Kind>, mic: bool, cam: bool)
    ensures var ts := SetEnabled(SetEnabled(LiveTracks(kinds), Audio, mic), Video, cam);
      |ts| == |kinds| && NoneStopped(ts) && KindEnabled(ts, Audio, mic) && KindEnabled(ts, Video, cam)
  {
    var live := LiveTracks(kinds);
    var a := SetEnabled(live, Audio, mic);
    SetEnabledEffect(live, Audio, mic);
    SetEnabledEffect(a, Video, cam);
  }

}
