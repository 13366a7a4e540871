/** The media helpers of static/js/call.js: enabling and stopping tracks of a
    stream, bitrate caps and degradation preference on the senders of a peer
    connection, and the choice of capture constraints.

    A stream is the array of its tracks and a peer connection the array of its
    senders; the helpers update those arrays element by element, as the
    source's `forEach` loops update the track and sender objects. */
module Media {
  import opened Optional

  datatype Kind = Audio | Video

  /** A capture track: its kind, whether it is enabled (a disabled track sends
      silence or black frames) and whether it is still live (`stop()` ends it). */
  datatype Track = Track(kind: Kind, enabled: bool, live: bool)

  /** One entry of `RTCRtpSendParameters.encodings`; only the bitrate cap is modelled. */
  datatype Encoding = Encoding(maxBitrate: Option<int>)

  /** The parameters of a sender, as `getParameters()` returns them and
      `setParameters()` installs them. */
  datatype Parameters = Parameters(encodings: Option<seq<Encoding>>, degradationPreference: Option<string>)

  /** An `RTCRtpSender`: the track it sends, if any, and its parameters. */
  datatype Sender = Sender(track: Option<Track>, parameters: Parameters)

  /** A stream that `getUserMedia` resolved with: a new stream holding `tracks`. */
  method Capture(tracks: seq<Track>) returns (stream: array<Track>)
    ensures fresh(stream)
    ensures stream[..] == tracks
  {
    stream := new Track[|tracks|](i requires 0 <= i < |tracks| => tracks[i]);
  }

  // ---------------------------------------------------------------------------
  // toggleTrack

  /** The tracks after every track of `kind` is set to `enabled`. */
  function WithKindEnabled(tracks: seq<Track>, kind: Kind, enabled: bool): (r: seq<Track>)
    ensures |r| == |tracks|
    ensures forall i :: 0 <= i < |r| ==> r[i].kind == tracks[i].kind && r[i].live == tracks[i].live
    ensures forall i :: 0 <= i < |r| && tracks[i].kind == kind ==> r[i].enabled == enabled
    ensures forall i :: 0 <= i < |r| && tracks[i].kind != kind ==> r[i] == tracks[i]
  {
    if tracks == [] then []
    else
      var t := tracks[0];
      [if t.kind == kind then t.(enabled := enabled) else t] + WithKindEnabled(tracks[1..], kind, enabled)
  }

  /** Every track of `kind` has enabled flag `enabled`. */
  predicate KindAgrees(tracks: seq<Track>, kind: Kind, enabled: bool) {
    forall i :: 0 <= i < |tracks| && tracks[i].kind == kind ==> tracks[i].enabled == enabled
  }

  /** Setting a kind twice is the same as setting it once to the later value. */
  lemma WithKindEnabledTwice(tracks: seq<Track>, kind: Kind, first: bool, second: bool)
    ensures WithKindEnabled(WithKindEnabled(tracks, kind, first), kind, second)
         == WithKindEnabled(tracks, kind, second)
  {
    var mid := WithKindEnabled(tracks, kind, first);
    var once := WithKindEnabled(tracks, kind, second);
    var twice := WithKindEnabled(mid, kind, second);
    forall i | 0 <= i < |tracks|
      ensures twice[i] == once[i]
    {
      if tracks[i].kind == kind {
        assert twice[i] == tracks[i].(enabled := second);
      } else {
        assert mid[i] == tracks[i];
      }
    }
  }

  /** Switching a kind off and on again (or on and off) restores the tracks
      when they agreed with the original value, and the result agrees with the
      value set. */
  lemma ToggleTwiceRestores(tracks: seq<Track>, kind: Kind, enabled: bool)
    requires KindAgrees(tracks, kind, enabled)
    ensures KindAgrees(WithKindEnabled(tracks, kind, !enabled), kind, !enabled)
    ensures WithKindEnabled(WithKindEnabled(tracks, kind, !enabled), kind, enabled) == tracks
  {
    WithKindEnabledTwice(tracks, kind, !enabled, enabled);
    var r := WithKindEnabled(tracks, kind, enabled);
    assert forall i :: 0 <= i < |tracks| ==> r[i] == tracks[i];
  }

  /** toggleTrack: a null stream is left alone; otherwise exactly the tracks
      of `kind` get `enabled`. */
  method ToggleTrack(stream: array?<Track>, kind: Kind, enabled: bool)
    modifies stream
    ensures stream != null ==> stream[..] == WithKindEnabled(old(stream[..]), kind, enabled)
  {
    if stream == null {
      return;
    }
    ghost var want := WithKindEnabled(stream[..], kind, enabled);
    var i := 0;
    while i < stream.Length
      invariant 0 <= i <= stream.Length
      invariant forall j :: 0 <= j < i ==> stream[j] == want[j]
      invariant forall j :: i <= j < stream.Length ==> stream[j] == old(stream[j])
    {
      if stream[i].kind == kind {
        stream[i] := stream[i].(enabled := enabled);
      }
      i := i + 1;
    }
    assert stream[..] == want;
  }

  // ---------------------------------------------------------------------------
  // track.stop() over all tracks, or over the tracks of one kind

  /** Whether a stop loop over `only` (all tracks when None) reaches a track of kind `k`. */
  predicate Selects(only: Option<Kind>, k: Kind) {
    only.None? || only.value == k
  }

  /** The tracks after every selected track is stopped. */
  function Stopped(tracks: seq<Track>, only: Option<Kind>): (r: seq<Track>)
    ensures |r| == |tracks|
    ensures forall i :: 0 <= i < |r| ==> r[i].kind == tracks[i].kind && r[i].enabled == tracks[i].enabled
    ensures forall i :: 0 <= i < |r| && Selects(only, tracks[i].kind) ==> !r[i].live
    ensures forall i :: 0 <= i < |r| && !Selects(only, tracks[i].kind) ==> r[i] == tracks[i]
  {
    if tracks == [] then []
    else
      var t := tracks[0];
      [if Selects(only, t.kind) then t.(live := false) else t] + Stopped(tracks[1..], only)
  }

  /** `stream.getTracks().forEach(t => t.stop())` (only == None) and
      `stream.getVideoTracks().forEach(t => t.stop())` (only == Some(Video)). */
  method StopTracks(stream: array<Track>, only: Option<Kind>)
    modifies stream
    ensures stream[..] == Stopped(old(stream[..]), only)
  {
    ghost var want := Stopped(stream[..], only);
    var i := 0;
    while i < stream.Length
      invariant 0 <= i <= stream.Length
      invariant forall j :: 0 <= j < i ==> stream[j] == want[j]
      invariant forall j :: i <= j < stream.Length ==> stream[j] == old(stream[j])
    {
      if Selects(only, stream[i].kind) {
        stream[i] := stream[i].(live := false);
      }
      i := i + 1;
    }
    assert stream[..] == want;
  }

  // ---------------------------------------------------------------------------
  // setBitrates

  const DEFAULT_VIDEO_KBPS: int := 1500
  const DEFAULT_AUDIO_KBPS: int := 50

  /** The cap in bits per second that setBitrates gives a sender of `kind`. */
  function BitrateFor(kind: Kind, videoKbps: int, audioKbps: int): int {
    if kind == Video then videoKbps * 1000 else audioKbps * 1000
  }

  /** What one round of setBitrates' loop does with a sender: skip it (no
      track), throw (the encodings list is present but empty, so
      `encodings[0]` is undefined), or compute new parameters. */
  datatype BitrateStep = Skip | Throw | Apply(parameters: Parameters)

  function BitrateStepFor(s: Sender, videoKbps: int, audioKbps: int): (r: BitrateStep)
    ensures r.Skip? <==> s.track.None?
    ensures r.Throw? <==> s.track.Some? && s.parameters.encodings == Some([])
    ensures r.Apply? ==> r.parameters.degradationPreference == s.parameters.degradationPreference
    ensures r.Apply? ==>
      var e := r.parameters.encodings;
      && e.Some? && |e.value| > 0
      && e.value[0].maxBitrate == Some(BitrateFor(s.track.value.kind, videoKbps, audioKbps))
      && (s.parameters.encodings.None? ==> |e.value| == 1)
      && (s.parameters.encodings.Some? ==>
            (|s.parameters.encodings.value| > 0 && e.value[1..] == s.parameters.encodings.value[1..]))
  {
    if s.track.None? then Skip
    else
      var encodings := s.parameters.encodings.GetOr([Encoding(None)]);
      if |encodings| == 0 then Throw
      else
        var rate := BitrateFor(s.track.value.kind, videoKbps, audioKbps);
        Apply(s.parameters.(encodings := Some(encodings[0 := Encoding(Some(rate))])))
  }

  /** Whether the loop leaves the `try` block at sender `i`: the round throws,
      or the awaited `setParameters` of sender `i` (an index in `refuses`) rejects. */
  predicate HaltsAt(senders: seq<Sender>, i: nat, videoKbps: int, audioKbps: int, refuses: set<nat>)
    requires i < |senders|
  {
    var step := BitrateStepFor(senders[i], videoKbps, audioKbps);
    step.Throw? || (step.Apply? && i in refuses)
  }

  /** The first index at or after `from` where the loop halts, or |senders|. */
  function HaltIndex(senders: seq<Sender>, from: nat, videoKbps: int, audioKbps: int, refuses: set<nat>): (k: nat)
    requires from <= |senders|
    ensures from <= k <= |senders|
    ensures forall j :: from <= j < k ==> !HaltsAt(senders, j, videoKbps, audioKbps, refuses)
    ensures k < |senders| ==> HaltsAt(senders, k, videoKbps, audioKbps, refuses)
    decreases |senders| - from
  {
    if from == |senders| || HaltsAt(senders, from, videoKbps, audioKbps, refuses) then from
    else HaltIndex(senders, from + 1, videoKbps, audioKbps, refuses)
  }

  /** The senders after setBitrates: every sender with a track before the halt
      index gets its first encoding capped (`[{}]` is installed first when the
      encodings are missing); everything else is as it was. */
  function BitratesApplied(senders: seq<Sender>, videoKbps: int, audioKbps: int, refuses: set<nat>): (r: seq<Sender>)
    ensures |r| == |senders|
    ensures forall i :: 0 <= i < |r| ==>
      (r[i].track == senders[i].track
       && r[i].parameters.degradationPreference == senders[i].parameters.degradationPreference)
    ensures forall i :: 0 <= i < |r| && senders[i].track.None? ==> r[i] == senders[i]
    ensures forall i :: HaltIndex(senders, 0, videoKbps, audioKbps, refuses) <= i < |r| ==> r[i] == senders[i]
  {
    var k := HaltIndex(senders, 0, videoKbps, audioKbps, refuses);
    seq(|senders|, i requires 0 <= i < |senders| =>
      var step := BitrateStepFor(senders[i], videoKbps, audioKbps);
      if i < k && step.Apply? then senders[i].(parameters := step.parameters) else senders[i])
  }

  /** Every sender with a track that setBitrates reaches before it halts has
      its first encoding capped at the rate for its kind; the other encodings
      are kept, and a missing list becomes a single encoding. */
  lemma BitratesCapReachedSenders(senders: seq<Sender>, videoKbps: int, audioKbps: int, refuses: set<nat>, i: nat)
    requires i < HaltIndex(senders, 0, videoKbps, audioKbps, refuses)
    requires senders[i].track.Some?
    ensures
      var e := BitratesApplied(senders, videoKbps, audioKbps, refuses)[i].parameters.encodings;
      var before := senders[i].parameters.encodings;
      && e.Some? && |e.value| > 0
      && e.value[0].maxBitrate == Some(BitrateFor(senders[i].track.value.kind, videoKbps, audioKbps))
      && (before.None? ==> |e.value| == 1)
      && (before.Some? ==> (|before.value| > 0 && e.value[1..] == before.value[1..]))
  {
    assert !HaltsAt(senders, i, videoKbps, audioKbps, refuses);
    var step := BitrateStepFor(senders[i], videoKbps, audioKbps);
    assert step.Apply?;
    assert BitratesApplied(senders, videoKbps, audioKbps, refuses)[i] == senders[i].(parameters := step.parameters);
  }

  /** When no sender with a track has an empty encodings list and no
      `setParameters` rejects, setBitrates reaches every sender. */
  lemma BitratesReachEverySender(senders: seq<Sender>, videoKbps: int, audioKbps: int, refuses: set<nat>)
    requires forall i :: 0 <= i < |senders| && senders[i].track.Some? ==> senders[i].parameters.encodings != Some([])
    requires forall i :: i in refuses ==> i >= |senders| || senders[i].track.None?
    ensures HaltIndex(senders, 0, videoKbps, audioKbps, refuses) == |senders|
  {
  }

  /** setBitrates(pc, videoBitrate = 1500, audioBitrate = 50). A null `pc`
      makes `getSenders()` throw inside the `try`, which is swallowed. */
  method SetBitrates(pc: array?<Sender>, refuses: set<nat>,
                     videoKbps: int := DEFAULT_VIDEO_KBPS, audioKbps: int := DEFAULT_AUDIO_KBPS)
    modifies pc
    ensures pc != null ==> pc[..] == BitratesApplied(old(pc[..]), videoKbps, audioKbps, refuses)
  {
    if pc == null {
      return;
    }
    ghost var want := BitratesApplied(pc[..], videoKbps, audioKbps, refuses);
    ghost var k := HaltIndex(pc[..], 0, videoKbps, audioKbps, refuses);
    var i := 0;
    while i < pc.Length
      invariant 0 <= i <= k
      invariant forall j :: 0 <= j < i ==> pc[j] == want[j]
      invariant forall j :: i <= j < pc.Length ==> pc[j] == old(pc[j])
    {
      var sender := pc[i];
      if sender.track.None? {
        i := i + 1;
        continue;
      }
      var parameters := sender.parameters;
      if parameters.encodings.None? {
        parameters := parameters.(encodings := Some([Encoding(None)]));
      }
      var encodings := parameters.encodings.value;
      if |encodings| == 0 {
        assert HaltsAt(old(pc[..]), i, videoKbps, audioKbps, refuses);
        break;
      }
      var rate := BitrateFor(sender.track.value.kind, videoKbps, audioKbps);
      parameters := parameters.(encodings := Some(encodings[0 := Encoding(Some(rate))]));
      assert BitrateStepFor(sender, videoKbps, audioKbps) == Apply(parameters);
      if i in refuses {
        assert HaltsAt(old(pc[..]), i, videoKbps, audioKbps, refuses);
        break;
      }
      pc[i] := sender.(parameters := parameters);
      i := i + 1;
    }
    assert pc[..] == want;
  }

  // ---------------------------------------------------------------------------
  // optimizePeerConnection

  const MAINTAIN_FRAMERATE: string := "maintain-framerate"

  /** JavaScript falsiness of an optional string: absent or empty. */
  predicate Falsy(s: Option<string>) {
    s.None? || s.value == ""
  }

  /** The index of the first sender without a track, or |senders|. */
  function FirstTrackless(senders: seq<Sender>): (k: nat)
    ensures k <= |senders|
    ensures forall j :: 0 <= j < k ==> senders[j].track.Some?
    ensures k < |senders| ==> senders[k].track.None?
  {
    if senders == [] || senders[0].track.None? then 0 else 1 + FirstTrackless(senders[1..])
  }

  /** Whether optimizePeerConnection gives sender `s` a degradation preference. */
  predicate WantsPreference(s: Sender) {
    s.track.Some? && s.track.value.kind == Video && Falsy(s.parameters.degradationPreference)
  }

  /** The senders after optimizePeerConnection: up to the first sender without
      a track (where `sender.track.kind` throws), the video senders with no
      degradation preference get 'maintain-framerate'; nothing else changes. */
  function Optimized(senders: seq<Sender>): (r: seq<Sender>)
    ensures |r| == |senders|
    ensures forall i :: 0 <= i < |r| ==>
      (r[i].track == senders[i].track && r[i].parameters.encodings == senders[i].parameters.encodings)
    ensures forall i :: 0 <= i < |r| ==>
      (r[i] != senders[i] <==> i < FirstTrackless(senders) && WantsPreference(senders[i]))
    ensures forall i :: 0 <= i < |r| && r[i] != senders[i] ==>
      r[i].parameters.degradationPreference == Some(MAINTAIN_FRAMERATE)
  {
    var k := FirstTrackless(senders);
    seq(|senders|, i requires 0 <= i < |senders| =>
      if i < k && WantsPreference(senders[i])
      then senders[i].(parameters := senders[i].parameters.(degradationPreference := Some(MAINTAIN_FRAMERATE)))
      else senders[i])
  }

  /** optimizePeerConnection. `completed` is false when the loop threw at a
      sender without a track; the error leaves the function uncaught. */
  method OptimizePeerConnection(pc: array?<Sender>) returns (completed: bool)
    modifies pc
    ensures pc != null ==> pc[..] == Optimized(old(pc[..]))
    ensures completed <==> pc == null || FirstTrackless(old(pc[..])) == pc.Length
  {
    if pc == null {
      return true;
    }
    ghost var want := Optimized(pc[..]);
    ghost var k := FirstTrackless(pc[..]);
    var i := 0;
    completed := true;
    while i < pc.Length
      invariant 0 <= i <= k
      invariant completed
      invariant forall j :: 0 <= j < i ==> pc[j] == want[j]
      invariant forall j :: i <= j < pc.Length ==> pc[j] == old(pc[j])
    {
      var sender := pc[i];
      if sender.track.None? {
        completed := false;
        break;
      }
      if sender.track.value.kind == Video {
        var parameters := sender.parameters;
        if Falsy(parameters.degradationPreference) {
          parameters := parameters.(degradationPreference := Some(MAINTAIN_FRAMERATE));
          pc[i] := sender.(parameters := parameters);
        }
      }
      i := i + 1;
    }
    assert pc[..] == want;
  }

  // ---------------------------------------------------------------------------
  // getOptimalStream, switchToAudioCall, switchToVideoCall

  /** The constraints handed to `getUserMedia`. */
  datatype Constraints =
    | HdVideoWithAudio                // videoConstraints: HD camera plus processed audio
    | ProcessedAudio                  // audioConstraints: no video, processed audio
    | Plain(video: bool, audio: bool) // a bare `{video, audio}` request

  predicate RequestsVideo(c: Constraints) {
    match c
    case HdVideoWithAudio => true
    case ProcessedAudio => false
    case Plain(video, _) => video
  }

  predicate RequestsAudio(c: Constraints) {
    match c
    case Plain(_, audio) => audio
    case _ => true
  }

  /** A granted stream meets its request: every track is live and enabled,
      and it has an audio track iff audio was asked for and a video track iff
      video was. */
  predicate Satisfies(tracks: seq<Track>, c: Constraints) {
    && (forall i :: 0 <= i < |tracks| ==> tracks[i].live && tracks[i].enabled)
    && ((exists i :: 0 <= i < |tracks| && tracks[i].kind == Audio) <==> RequestsAudio(c))
    && ((exists i :: 0 <= i < |tracks| && tracks[i].kind == Video) <==> RequestsVideo(c))
  }

  /** The outcome of a media acquisition: a stream captured under some constraints, or a refusal. */
  datatype Acquisition = Granted(constraints: Constraints) | Denied

  /** getOptimalStream(type): the tuned constraints for the type first, then
      the bare `{video: type === 'video', audio: true}` fallback.
      `grants` says which requests the browser satisfies. */
  function GetOptimalStream(callType: string, grants: Constraints -> bool): (r: Acquisition)
    ensures r.Granted? <==>
      (grants(if callType == "video" then HdVideoWithAudio else ProcessedAudio) || grants(Plain(callType == "video", true)))
    ensures r.Granted? ==> grants(r.constraints)
    ensures r.Granted? ==> RequestsAudio(r.constraints) && (RequestsVideo(r.constraints) <==> callType == "video")
    ensures r.Granted? && r.constraints.Plain? ==> !grants(if callType == "video" then HdVideoWithAudio else ProcessedAudio)
  {
    var tuned := if callType == "video" then HdVideoWithAudio else ProcessedAudio;
    if grants(tuned) then Granted(tuned)
    else
      var fallback := Plain(callType == "video", true);
      if grants(fallback) then Granted(fallback) else Denied
  }

  /** switchToAudioCall(stream): stops the stream's video tracks, when there
      is a stream, then requests audio only. The tuned values inside the
      request (echo cancellation, noise suppression, gain control) are
      configuration and are not modelled; only which media it asks for is. */
  method SwitchToAudioCall(stream: array?<Track>, granted: bool) returns (r: Acquisition)
    modifies stream
    ensures stream != null ==> stream[..] == Stopped(old(stream[..]), Some(Video))
    ensures r.Granted? <==> granted
    ensures r.Granted? ==> RequestsAudio(r.constraints) && !RequestsVideo(r.constraints)
  {
    if stream != null {
      StopTracks(stream, Some(Video));
    }
    r := if granted then Granted(ProcessedAudio) else Denied;
  }

  /** switchToVideoCall(): requests the tuned camera and microphone. As for
      SwitchToAudioCall, the resolution, frame rate, facing mode, codec and audio values are
      configuration; only which media it asks for is modelled. */
  function SwitchToVideoCall(granted: bool): (r: Acquisition)
    ensures r.Granted? <==> granted
    ensures r.Granted? ==> RequestsAudio(r.constraints) && RequestsVideo(r.constraints)
  {
    if granted then Granted(HdVideoWithAudio) else Denied
  }
}
