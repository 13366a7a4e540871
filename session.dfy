/** The call-session state machine of static/js/app.js.

    The page's module-level variables are held together in one record,
    the `state` field of a `CallSession` object; every handler replaces it
    with an updated copy. The three names the page keeps only as text on the
    screen (the caller announced by `incoming_call`, the user being called,
    and the peer of the running call) are the record's `caller`, `callee`
    and `remotePeer`. Every socket event, PeerJS event and button press is a
    method. What the page emits on its socket is appended to the record's
    log `sent`, and every `getUserMedia` request to its log `requested`;
    whether a request is granted, and with which tracks, is a parameter
    (`media`: None when the request is refused). */
module Session {
  import opened Optional
  import opened Media
  import Roster

  const VIDEO: string := "video"
  const AUDIO: string := "audio"

  /** The messages the page emits on its signaling socket. */
  datatype Outbound =
    | RegisterUser(username: string)
    | RequestCall(caller: string, callee: string, callType: string)
    | CallResponse(caller: string, accepted: bool, responder: string)
    | CallEnded(user: string, peer: string)
    | ToggleMedia(user: string, peer: string, mediaType: string, enabled: bool)

  /** Which code path made a PeerJS media connection. It decides what the
      connection's events do: a `Dialled` connection (startCall, on the
      caller) resets the session on `close` and on `error`; a `Returned` one
      (acceptCall, on the callee) resets on `error` only; an `Answered` one
      (the `call` handler) only reports its errors. */
  datatype Origin = Dialled | Returned | Answered

  /** A remote stream delivered by a connection's `stream` event; the page never looks inside it. */
  type StreamHandle = nat

  /** The senders a new peer connection carries for a local stream: one per
      track, with parameters not yet set. */
  function SendersFor(tracks: seq<Track>): (r: seq<Sender>)
    ensures |r| == |tracks|
    ensures forall i :: 0 <= i < |r| ==> r[i].track == Some(tracks[i])
    ensures FirstTrackless(r) == |r|
  {
    seq(|tracks|, i requires 0 <= i < |tracks| => Sender(Some(tracks[i]), Parameters(None, None)))
  }

  /** A PeerJS media connection: the peer it connects to, the code path
      that took it on (which decides the listeners it has), the senders of
      its `peerConnection` and whether it is still open. */
  class MediaConnection {
    const peer: string
    var origin: Origin
    var senders: array<Sender>
    var open: bool

    constructor (peer: string, origin: Origin, tracks: seq<Track>)
      ensures this.peer == peer && this.origin == origin && open
      ensures fresh(senders) && senders[..] == SendersFor(tracks)
    {
      this.peer := peer;
      this.origin := origin;
      senders := new Sender[|tracks|](i requires 0 <= i < |tracks| => SendersFor(tracks)[i]);
      open := true;
    }

    /** `incomingCall.answer(localStream)` followed by the listeners of the
        `call` handler: the connection now sends the local tracks. */
    method Answer(tracks: seq<Track>)
      modifies this
      ensures origin == Answered && open == old(open)
      ensures fresh(senders) && senders[..] == SendersFor(tracks)
    {
      origin := Answered;
      senders := new Sender[|tracks|](i requires 0 <= i < |tracks| => SendersFor(tracks)[i]);
    }

    /** `currentCall.close()` */
    method Close()
      modifies this`open
      ensures !open && origin == old(origin) && senders == old(senders)
    {
      open := false;
    }
  }

  // ---------------------------------------------------------------------------
  // Replacing the outgoing tracks in switchCallType

  /** The first track of `kind` in a stream: `getTracks().find(t => t.kind === kind)`. */
  function FirstOfKind(tracks: seq<Track>, kind: Kind): (r: Option<Track>)
    ensures r.None? <==> forall i :: 0 <= i < |tracks| ==> tracks[i].kind != kind
    ensures r.Some? ==> exists i :: 0 <= i < |tracks| && tracks[i] == r.value && r.value.kind == kind
                                  && forall j :: 0 <= j < i ==> tracks[j].kind != kind
  {
    if tracks == [] then None
    else if tracks[0].kind == kind then Some(tracks[0])
    else
      var r := FirstOfKind(tracks[1..], kind);
      assert r.Some? ==> (exists i :: 0 <= i < |tracks[1..]| && tracks[1..][i] == r.value
                                    && forall j :: 0 <= j < i ==> tracks[1..][j].kind != kind);
      assert r.None? ==> forall i :: 1 <= i < |tracks| ==> tracks[i].kind == tracks[1..][i - 1].kind;
      r
  }

  /** The senders after the replacement loop: up to the first sender without
      a track (where `sender.track.kind` throws), each sender whose kind the
      new stream has sends the stream's first track of that kind; everything
      else is as it was. */
  function WithReplacedTracks(senders: seq<Sender>, tracks: seq<Track>): (r: seq<Sender>)
    ensures |r| == |senders|
    ensures forall i :: 0 <= i < |r| ==> r[i].parameters == senders[i].parameters
    ensures forall i :: FirstTrackless(senders) <= i < |r| ==> r[i] == senders[i]
    ensures forall i :: 0 <= i < FirstTrackless(senders) ==>
      r[i].track.Some? && r[i].track.value.kind == senders[i].track.value.kind
    ensures forall i :: 0 <= i < FirstTrackless(senders) && FirstOfKind(tracks, senders[i].track.value.kind).Some? ==>
      r[i].track == FirstOfKind(tracks, senders[i].track.value.kind)
    ensures forall i :: 0 <= i < FirstTrackless(senders) && FirstOfKind(tracks, senders[i].track.value.kind).None? ==>
      r[i] == senders[i]
  {
    var k := FirstTrackless(senders);
    seq(|senders|, i requires 0 <= i < |senders| =>
      if i < k && FirstOfKind(tracks, senders[i].track.value.kind).Some?
      then senders[i].(track := FirstOfKind(tracks, senders[i].track.value.kind))
      else senders[i])
  }

  /** `currentCall.peerConnection.getSenders().forEach(...)` of switchCallType.
      `completed` is false when the loop threw at a sender without a track. */
  method ReplaceSenderTracks(senders: array<Sender>, tracks: seq<Track>) returns (completed: bool)
    modifies senders
    ensures senders[..] == WithReplacedTracks(old(senders[..]), tracks)
    ensures completed <==> FirstTrackless(old(senders[..])) == senders.Length
  {
    ghost var want := WithReplacedTracks(senders[..], tracks);
    ghost var k := FirstTrackless(senders[..]);
    var i := 0;
    completed := true;
    while i < senders.Length
      invariant 0 <= i <= k
      invariant completed
      invariant forall j :: 0 <= j < i ==> senders[j] == want[j]
      invariant forall j :: i <= j < senders.Length ==> senders[j] == old(senders[j])
    {
      var sender := senders[i];
      if sender.track.None? {
        completed := false;
        break;
      }
      var track := FirstOfKind(tracks, sender.track.value.kind);
      assert want[i] == if track.Some? then sender.(track := track) else sender;
      if track.Some? {
        senders[i] := sender.(track := track);
      }
      i := i + 1;
    }
    assert senders[..] == want;
  }

  // ---------------------------------------------------------------------------
  // The session

  /** `callType === 'video' ? 'audio' : 'video'`, the switch of switchCallType. */
  function SwitchedType(t: string): (r: string)
    ensures r == VIDEO || r == AUDIO
    ensures r != t
  {
    if t == VIDEO then AUDIO else VIDEO
  }

  /** Switching twice restores a video or audio call type; any other type
      (an `incoming_call` may announce one) becomes audio. */
  lemma SwitchedTypeTwice(t: string)
    ensures t == VIDEO || t == AUDIO ==> SwitchedType(SwitchedType(t)) == t
    ensures t != VIDEO && t != AUDIO ==> SwitchedType(SwitchedType(t)) == AUDIO
  {
  }

  /** The page's module-level variables and the texts it shows, with the
      socket's outbound messages and the `getUserMedia` requests so far. */
  datatype SessionState = SessionState(
    onlineUsers: seq<string>,
    isInCall: bool,
    callType: string,                 // 'video' or 'audio', or whatever an incoming_call announced
    localStream: array?<Track>,
    remoteStream: Option<StreamHandle>,
    currentCall: MediaConnection?,
    isVideoEnabled: bool,
    isAudioEnabled: bool,
    isPeerVideoEnabled: bool,
    isPeerAudioEnabled: bool,
    caller: string,                   // the text of the caller-user element
    callee: string,                   // the text of the calling-user element
    remotePeer: string,               // the text of the remote-username element
    sent: seq<Outbound>,
    requested: seq<Constraints>)

  /** What resetCallState guarantees: not in a call, no connection, no
      streams, a video call type and every media flag on. */
  predicate FullyCleared(s: SessionState) {
    && !s.isInCall
    && s.currentCall == null && s.localStream == null && s.remoteStream.None?
    && s.callType == VIDEO
    && s.isVideoEnabled && s.isAudioEnabled && s.isPeerVideoEnabled && s.isPeerAudioEnabled
  }

  /** The state resetCallState leaves: fully cleared, with the roster, the
      names on screen and the logs kept. */
  function Cleared(s: SessionState): (r: SessionState)
    ensures FullyCleared(r)
    ensures r.onlineUsers == s.onlineUsers && r.sent == s.sent && r.requested == s.requested
    ensures r.caller == s.caller && r.callee == s.callee && r.remotePeer == s.remotePeer
  {
    s.(isInCall := false, currentCall := null, localStream := null, remoteStream := None, callType := VIDEO,
       isVideoEnabled := true, isAudioEnabled := true, isPeerVideoEnabled := true, isPeerAudioEnabled := true)
  }

  /** The session of one logged-in user. Its variables are held as one
      record, `state`, so that every handler's effect reads as an update of
      that record. */
  class CallSession {
    const self: string                  // currentUsername
    var state: SessionState

    /** A logged-in session; `isInCall` is only ever set with a local stream
        and a connection in place. */
    ghost predicate Valid()
      reads this
    {
      self != "" && (state.isInCall ==> state.localStream != null && state.currentCall != null)
    }

    /** handleLogin with a non-empty (trimmed) name; the screen texts start empty. */
    constructor (username: string)
      requires username != ""
      ensures Valid() && self == username
      ensures state == SessionState([], false, VIDEO, null, None, null, true, true, true, true, "", "", "", [], [])
    {
      self := username;
      state := SessionState([], false, VIDEO, null, None, null, true, true, true, true, "", "", "", [], []);
    }

    // -------------------------------------------------------------------------
    // Teardown

    /** resetCallState: leaves the call, closes the connection, stops every
        local track, drops both streams and restores the defaults; the roster
        and the names on screen are kept. */
    method ResetCallState()
      requires self != ""
      modifies this, state.localStream, (if state.currentCall == null then {} else {state.currentCall})`open
      ensures Valid()
      ensures state == Cleared(old(state))
      ensures old(state.currentCall) != null ==> !old(state.currentCall).open
      ensures old(state.localStream) != null ==>
        old(state.localStream)[..] == Stopped(old(state.localStream[..]), None)
    {
      state := state.(isInCall := false);
      if state.currentCall != null {
        state.currentCall.Close();
        state := state.(currentCall := null);
      }
      if state.localStream != null {
        StopTracks(state.localStream, None);
        state := state.(localStream := null);
      }
      state := state.(remoteStream := None, callType := VIDEO, isVideoEnabled := true, isAudioEnabled := true,
                      isPeerVideoEnabled := true, isPeerAudioEnabled := true);
    }

    // -------------------------------------------------------------------------
    // Socket events

    /** The socket's `connect` event registers the user. */
    method OnConnect()
      requires Valid()
      modifies this
      ensures Valid()
      ensures state == old(state).(sent := old(state.sent) + [RegisterUser(self)])
    {
      state := state.(sent := state.sent + [RegisterUser(self)]);
    }

    /** The socket's `reconnect` event registers again when a name is set,
        which it always is once logged in. */
    method OnReconnect()
      requires Valid()
      modifies this
      ensures Valid()
      ensures state == old(state).(sent := old(state.sent) + [RegisterUser(self)])
    {
      if self != "" {
        state := state.(sent := state.sent + [RegisterUser(self)]);
      }
    }

    /** `online_users`: the snapshot replaces the roster. */
    method OnOnlineUsers(users: seq<string>)
      requires Valid()
      modifies this
      ensures Valid()
      ensures state == old(state).(onlineUsers := users)
    {
      state := state.(onlineUsers := users);
    }

    /** `user_connected`: the name is appended unless it is listed already. */
    method OnUserConnected(username: string)
      requires Valid()
      modifies this
      ensures Valid()
      ensures state == old(state).(onlineUsers := Roster.Added(old(state.onlineUsers), username))
      ensures username in old(state.onlineUsers) ==> state == old(state)
      ensures Roster.NoDuplicates(old(state.onlineUsers)) ==> Roster.NoDuplicates(state.onlineUsers)
    {
      if username !in state.onlineUsers {
        state := state.(onlineUsers := state.onlineUsers + [username]);
      }
    }

    /** `user_disconnected`: every occurrence of the name leaves the roster,
        and the session is reset when the client is in a call with that user
        (the peer's name on screen). */
    method OnUserDisconnected(username: string)
      requires Valid()
      modifies this, state.localStream, (if state.currentCall == null then {} else {state.currentCall})`open
      ensures Valid()
      ensures state.onlineUsers == Roster.Without(old(state.onlineUsers), username) && username !in state.onlineUsers
      ensures old(state.isInCall) && old(state.remotePeer) == username ==>
        state == Cleared(old(state).(onlineUsers := state.onlineUsers))
      ensures !(old(state.isInCall) && old(state.remotePeer) == username) ==>
        state == old(state).(onlineUsers := state.onlineUsers)
      ensures old(state.isInCall) && old(state.remotePeer) == username ==>
        && !old(state.currentCall).open
        && old(state.localStream)[..] == Stopped(old(state.localStream[..]), None)
      ensures !(old(state.isInCall) && old(state.remotePeer) == username) && old(state.localStream) != null ==>
        unchanged(old(state.localStream))
      ensures !(old(state.isInCall) && old(state.remotePeer) == username) && old(state.currentCall) != null ==>
        unchanged(old(state.currentCall))
    {
      state := state.(onlineUsers := Roster.Without(state.onlineUsers, username));
      if state.isInCall && state.remotePeer == username {
        ResetCallState();
      }
    }

    /** `incoming_call`: while `isInCall` the call is refused on the spot and
        nothing else changes; otherwise the caller and the call type are
        recorded and the incoming-call screen shows. */
    method OnIncomingCall(caller: string, callType: string)
      requires Valid()
      modifies this
      ensures Valid()
      ensures old(state.isInCall) ==> state == old(state).(sent := old(state.sent) + [CallResponse(caller, false, self)])
      ensures !old(state.isInCall) ==> state == old(state).(caller := caller, callType := callType)
    {
      if state.isInCall {
        state := state.(sent := state.sent + [CallResponse(caller, false, self)]);
        return;
      }
      state := state.(caller := caller, callType := callType);
    }

    /** startCall(peerUsername): dials the peer with the local stream. With
        no local stream the session is reset; when `peer.call` returns no
        connection (`dialOk` false) the previous connection is dropped
        without being closed and the session is reset. `isInCall` is left
        as it was. */
    method StartCall(peerName: string, dialOk: bool)
      requires Valid()
      modifies this, state.localStream, (if state.currentCall == null then {} else {state.currentCall})`open
      ensures Valid()
      ensures old(state.localStream) != null && dialOk ==>
        && state.currentCall != null && fresh(state.currentCall)
        && state.currentCall.peer == peerName && state.currentCall.origin == Dialled && state.currentCall.open
        && state.currentCall.senders[..] == SendersFor(old(state.localStream[..]))
        && state == old(state).(currentCall := state.currentCall)
        && unchanged(old(state.localStream))
      ensures old(state.localStream) != null && !dialOk ==>
        && state == Cleared(old(state))
        && old(state.localStream)[..] == Stopped(old(state.localStream[..]), None)
      ensures old(state.localStream) != null && old(state.currentCall) != null ==> unchanged(old(state.currentCall))
      ensures old(state.localStream) == null ==>
        state == Cleared(old(state)) && (old(state.currentCall) != null ==> !old(state.currentCall).open)
    {
      if state.localStream != null {
        if dialOk {
          var c := new MediaConnection(peerName, Dialled, state.localStream[..]);
          state := state.(currentCall := c);
        } else {
          state := state.(currentCall := null);
          ResetCallState();
        }
      } else {
        ResetCallState();
      }
    }

    /** `call_accepted`: shows the responder as the peer and starts the call. */
    method OnCallAccepted(responder: string, dialOk: bool)
      requires Valid()
      modifies this, state.localStream, (if state.currentCall == null then {} else {state.currentCall})`open
      ensures Valid()
      ensures state.remotePeer == responder && state.sent == old(state.sent)
      ensures !old(state.isInCall) ==> !state.isInCall
      ensures old(state.localStream) != null && dialOk ==>
        && state.currentCall != null && fresh(state.currentCall)
        && state.currentCall.peer == responder && state.currentCall.origin == Dialled
        && state.currentCall.open && state.currentCall.senders[..] == SendersFor(old(state.localStream[..]))
        && state == old(state).(remotePeer := responder, currentCall := state.currentCall)
      ensures !(old(state.localStream) != null && dialOk) ==> state == Cleared(old(state).(remotePeer := responder))
      ensures old(state.localStream) != null && dialOk ==> unchanged(old(state.localStream))
      ensures old(state.localStream) != null && !dialOk ==>
        old(state.localStream)[..] == Stopped(old(state.localStream[..]), None)
      ensures old(state.localStream) != null && old(state.currentCall) != null ==> unchanged(old(state.currentCall))
      ensures old(state.localStream) == null && old(state.currentCall) != null ==> !old(state.currentCall).open
    {
      state := state.(remotePeer := responder);
      StartCall(responder, dialOk);
    }

    /** `call_rejected`: the session is reset. */
    method OnCallRejected(responder: string)
      requires Valid()
      modifies this, state.localStream, (if state.currentCall == null then {} else {state.currentCall})`open
      ensures Valid()
      ensures state == Cleared(old(state))
      ensures old(state.currentCall) != null ==> !old(state.currentCall).open
      ensures old(state.localStream) != null ==>
        old(state.localStream)[..] == Stopped(old(state.localStream[..]), None)
    {
      ResetCallState();
    }

    /** `peer_ended_call`: the session is reset. */
    method OnPeerEndedCall(peer: string)
      requires Valid()
      modifies this, state.localStream, (if state.currentCall == null then {} else {state.currentCall})`open
      ensures Valid()
      ensures state == Cleared(old(state))
      ensures old(state.currentCall) != null ==> !old(state.currentCall).open
      ensures old(state.localStream) != null ==>
        old(state.localStream)[..] == Stopped(old(state.localStream[..]), None)
    {
      ResetCallState();
    }

    /** `call_error`: the session is reset. */
    method OnCallError(message: string)
      requires Valid()
      modifies this, state.localStream, (if state.currentCall == null then {} else {state.currentCall})`open
      ensures Valid()
      ensures state == Cleared(old(state))
      ensures old(state.currentCall) != null ==> !old(state.currentCall).open
      ensures old(state.localStream) != null ==>
        old(state.localStream)[..] == Stopped(old(state.localStream[..]), None)
    {
      ResetCallState();
    }

    /** `peer_toggled_media`: records the peer's advisory flag for a video or
        audio toggle, whoever sent it; any other type is ignored. */
    method OnPeerToggledMedia(peer: string, mediaType: string, enabled: bool)
      requires Valid()
      modifies this
      ensures Valid()
      ensures mediaType == VIDEO ==> state == old(state).(isPeerVideoEnabled := enabled)
      ensures mediaType == AUDIO ==> state == old(state).(isPeerAudioEnabled := enabled)
      ensures mediaType != VIDEO && mediaType != AUDIO ==> state == old(state)
    {
      if mediaType == VIDEO {
        state := state.(isPeerVideoEnabled := enabled);
      } else if mediaType == AUDIO {
        state := state.(isPeerAudioEnabled := enabled);
      }
    }

    // -------------------------------------------------------------------------
    // PeerJS events

    /** `peer.on('call')`: an offer from `offer.peer` is answered with the
        local stream when the client is not in a call and has a local
        stream; otherwise the offer is closed and nothing else changes. */
    method OnPeerCall(offer: MediaConnection)
      requires Valid()
      modifies this, offer
      ensures Valid()
      ensures !old(state.isInCall) && old(state.localStream) != null ==>
        && state == old(state).(currentCall := offer)
        && offer.origin == Answered && offer.open == old(offer.open)
        && fresh(offer.senders) && offer.senders[..] == SendersFor(old(state.localStream[..]))
      ensures (!old(state.isInCall) && old(state.localStream) != null && old(state.currentCall) != null
               && old(state.currentCall) != offer) ==> unchanged(old(state.currentCall))
      ensures !(!old(state.isInCall) && old(state.localStream) != null) ==>
        state == old(state) && !offer.open && offer.origin == old(offer.origin) && offer.senders == old(offer.senders)
    {
      if !state.isInCall && state.localStream != null {
        offer.Answer(state.localStream[..]);
        state := state.(currentCall := offer);
      } else {
        offer.Close();
      }
    }

    /** A connection's `stream` event, on any connection, current or stale. */
    method OnRemoteStream(stream: StreamHandle)
      requires Valid()
      modifies this
      ensures Valid()
      ensures state == old(state).(remoteStream := Some(stream))
    {
      state := state.(remoteStream := Some(stream));
    }

    /** A connection's `error` event: resets the session unless the
        connection was made by answering; it need not be the current one. */
    method OnConnectionError(c: MediaConnection)
      requires Valid()
      modifies this, state.localStream, (if state.currentCall == null then {} else {state.currentCall})`open
      ensures Valid()
      ensures old(c.origin) != Answered ==> state == Cleared(old(state))
      ensures old(c.origin) != Answered && old(state.currentCall) != null ==> !old(state.currentCall).open
      ensures old(c.origin) != Answered && old(state.localStream) != null ==>
        old(state.localStream)[..] == Stopped(old(state.localStream[..]), None)
      ensures old(c.origin) == Answered ==> state == old(state)
      ensures old(c.origin) == Answered && old(state.localStream) != null ==> unchanged(old(state.localStream))
      ensures old(c.origin) == Answered && old(state.currentCall) != null ==> unchanged(old(state.currentCall))
    {
      if c.origin != Answered {
        ResetCallState();
      }
    }

    /** A connection's `close` event: only a connection made by startCall
        listens for it, and it resets the session. */
    method OnConnectionClose(c: MediaConnection)
      requires Valid()
      modifies this, state.localStream, (if state.currentCall == null then {} else {state.currentCall})`open
      ensures Valid()
      ensures old(c.origin) == Dialled ==> state == Cleared(old(state))
      ensures old(c.origin) == Dialled && old(state.currentCall) != null ==> !old(state.currentCall).open
      ensures old(c.origin) == Dialled && old(state.localStream) != null ==>
        old(state.localStream)[..] == Stopped(old(state.localStream[..]), None)
      ensures old(c.origin) != Dialled ==> state == old(state)
      ensures old(c.origin) != Dialled && old(state.localStream) != null ==> unchanged(old(state.localStream))
      ensures old(c.origin) != Dialled && old(state.currentCall) != null ==> unchanged(old(state.currentCall))
    {
      if c.origin == Dialled {
        ResetCallState();
      }
    }

    // -------------------------------------------------------------------------
    // The user's actions

    /** initiateCall(username, type): refused while `isInCall`. Otherwise
        records the type and the callee and asks for `{audio: true, video:
        type === 'video'}`; with a stream it emits `request_call` (a previous
        local stream is dropped without being stopped), without one it
        resets. `isInCall` is not set either way. */
    method InitiateCall(username: string, callType: string, media: Option<seq<Track>>)
      requires Valid()
      modifies this, state.localStream, (if state.currentCall == null then {} else {state.currentCall})`open
      ensures Valid()
      ensures old(state.isInCall) ==> state == old(state)
      ensures !old(state.isInCall) && media.Some? ==>
        && state.localStream != null && fresh(state.localStream) && state.localStream[..] == media.value
        && state == old(state).(
             callType := callType, callee := username, localStream := state.localStream,
             sent := old(state.sent) + [RequestCall(self, username, callType)],
             requested := old(state.requested) + [Plain(callType == VIDEO, true)])
      ensures !old(state.isInCall) && media.None? ==>
        state == Cleared(old(state).(callee := username, requested := old(state.requested) + [Plain(callType == VIDEO, true)]))
      ensures !old(state.isInCall) && media.None? && old(state.currentCall) != null ==> !old(state.currentCall).open
      ensures !old(state.isInCall) && media.None? && old(state.localStream) != null ==>
        old(state.localStream)[..] == Stopped(old(state.localStream[..]), None)
      ensures (old(state.isInCall) || media.Some?) && old(state.localStream) != null ==> unchanged(old(state.localStream))
      ensures (old(state.isInCall) || media.Some?) && old(state.currentCall) != null ==> unchanged(old(state.currentCall))
    {
      if state.isInCall {
        return;
      }
      state := state.(callType := callType, callee := username,
                      requested := state.requested + [Plain(callType == VIDEO, true)]);
      if media.Some? {
        var stream := Capture(media.value);
        state := state.(localStream := stream, sent := state.sent + [RequestCall(self, username, callType)]);
      } else {
        ResetCallState();
      }
    }

    /** acceptCall(accept). Rejecting emits `call_response(accepted=false)`
        and resets. Accepting asks for `{audio: true, video: callType ===
        'video'}`: refused, it rejects and resets as the catch block does;
        granted, the call is answered (AnswerCall). `captured` is the granted
        stream, null when none was granted. */
    method AcceptCall(accept: bool, media: Option<seq<Track>>, dialOk: bool) returns (captured: array?<Track>)
      requires Valid()
      modifies this, state.localStream, (if state.currentCall == null then {} else {state.currentCall})`open
      ensures Valid()
      ensures !accept ==>
        state == Cleared(old(state).(sent := old(state.sent) + [CallResponse(old(state.caller), false, self)]))
      ensures accept ==> state.requested == old(state.requested) + [Plain(old(state.callType) == VIDEO, true)]
      ensures accept && media.None? ==>
        state == Cleared(old(state).(sent := old(state.sent) + [CallResponse(old(state.caller), false, self)],
                                     requested := state.requested))
      ensures accept && media.Some? && !dialOk ==>
        state == Cleared(old(state).(
                   sent := old(state.sent) + [CallResponse(old(state.caller), true, self),
                                              CallResponse(old(state.caller), false, self)],
                   requested := state.requested, remotePeer := old(state.caller)))
      ensures accept && media.Some? ==> captured != null && fresh(captured)
      ensures accept && media.Some? && !dialOk ==> captured[..] == Stopped(media.value, None)
      ensures accept && media.Some? && dialOk ==>
        && captured[..] == media.value
        && state.currentCall != null && fresh(state.currentCall)
        && state.currentCall.peer == old(state.caller) && state.currentCall.origin == Returned && state.currentCall.open
        && state.currentCall.senders[..] == SendersFor(media.value)
        && state == old(state).(
             isInCall := true, localStream := captured, currentCall := state.currentCall,
             remotePeer := old(state.caller), sent := old(state.sent) + [CallResponse(old(state.caller), true, self)],
             requested := state.requested)
      ensures !(accept && media.Some?) ==> captured == null
      ensures !(accept && media.Some?) && old(state.currentCall) != null ==> !old(state.currentCall).open
      ensures !(accept && media.Some?) && old(state.localStream) != null ==>
        old(state.localStream)[..] == Stopped(old(state.localStream[..]), None)
      ensures accept && media.Some? && old(state.localStream) != null ==> unchanged(old(state.localStream))
      ensures accept && media.Some? && old(state.currentCall) != null ==> unchanged(old(state.currentCall))
    {
      captured := null;
      if !accept {
        DeclineCall();
      } else if media.None? {
        AcceptRefused();
      } else {
        captured := AcceptGranted(media.value, dialOk);
      }
    }

    /** acceptCall(true) when the stream request is refused: the request is
        logged, then the catch block rejects and resets. */
    method AcceptRefused()
      requires self != ""
      modifies this, state.localStream, (if state.currentCall == null then {} else {state.currentCall})`open
      ensures Valid()
      ensures state == Cleared(old(state).(
                         sent := old(state.sent) + [CallResponse(old(state.caller), false, self)],
                         requested := old(state.requested) + [Plain(old(state.callType) == VIDEO, true)]))
      ensures old(state.currentCall) != null ==> !old(state.currentCall).open
      ensures old(state.localStream) != null ==>
        old(state.localStream)[..] == Stopped(old(state.localStream[..]), None)
    {
      state := state.(requested := state.requested + [Plain(state.callType == VIDEO, true)]);
      DeclineCall();
    }

    /** acceptCall(true) when the stream request is granted: the request is
        logged and the call answered with the granted tracks. */
    method AcceptGranted(tracks: seq<Track>, dialOk: bool) returns (captured: array<Track>)
      requires self != ""
      modifies this, state.localStream, (if state.currentCall == null then {} else {state.currentCall})`open
      ensures Valid()
      ensures fresh(captured)
      ensures state.requested == old(state.requested) + [Plain(old(state.callType) == VIDEO, true)]
      ensures !dialOk ==>
        && state == Cleared(old(state).(
                      sent := old(state.sent) + [CallResponse(old(state.caller), true, self),
                                                 CallResponse(old(state.caller), false, self)],
                      requested := state.requested, remotePeer := old(state.caller)))
        && captured[..] == Stopped(tracks, None)
      ensures dialOk ==>
        && captured[..] == tracks
        && state.currentCall != null && fresh(state.currentCall)
        && state.currentCall.peer == old(state.caller) && state.currentCall.origin == Returned && state.currentCall.open
        && state.currentCall.senders[..] == SendersFor(tracks)
        && state == old(state).(
             isInCall := true, localStream := captured, currentCall := state.currentCall,
             remotePeer := old(state.caller), sent := old(state.sent) + [CallResponse(old(state.caller), true, self)],
             requested := state.requested)
      ensures old(state.localStream) != null ==> unchanged(old(state.localStream))
      ensures old(state.currentCall) != null ==> unchanged(old(state.currentCall))
    {
      state := state.(requested := state.requested + [Plain(state.callType == VIDEO, true)]);
      captured := AnswerCall(tracks, dialOk);
    }

    /** The rejection of acceptCall (and of its catch block): emits
        `call_response(accepted=false)` to the caller on screen and resets. */
    method DeclineCall()
      requires self != ""
      modifies this, state.localStream, (if state.currentCall == null then {} else {state.currentCall})`open
      ensures Valid()
      ensures state == Cleared(old(state).(sent := old(state.sent) + [CallResponse(old(state.caller), false, self)]))
      ensures old(state.currentCall) != null ==> !old(state.currentCall).open
      ensures old(state.localStream) != null ==>
        old(state.localStream)[..] == Stopped(old(state.localStream[..]), None)
    {
      state := state.(sent := state.sent + [CallResponse(state.caller, false, self)]);
      ResetCallState();
    }

    /** The try block of acceptCall once the stream is granted: the stream
        becomes the local stream, `call_response(accepted=true)` goes out,
        the caller becomes the peer on screen and is dialled, and `isInCall`
        is set. When `peer.call` returns no connection (`dialOk` false) the
        handler throws on the missing connection after the acceptance went
        out (DialFailed), and the new stream's tracks are stopped. `captured`
        is the stream `getUserMedia` resolved with; the previous local stream
        and connection are dropped as they are, neither stopped nor closed. */
    method AnswerCall(tracks: seq<Track>, dialOk: bool) returns (captured: array<Track>)
      requires self != ""
      modifies this, state.localStream, (if state.currentCall == null then {} else {state.currentCall})`open
      ensures Valid()
      ensures fresh(captured)
      ensures !dialOk ==>
        && state == Cleared(old(state).(
                      sent := old(state.sent) + [CallResponse(old(state.caller), true, self),
                                                 CallResponse(old(state.caller), false, self)],
                      remotePeer := old(state.caller)))
        && captured[..] == Stopped(tracks, None)
      ensures dialOk ==>
        && captured[..] == tracks
        && state.currentCall != null && fresh(state.currentCall)
        && state.currentCall.peer == old(state.caller) && state.currentCall.origin == Returned && state.currentCall.open
        && state.currentCall.senders[..] == SendersFor(tracks)
        && state == old(state).(
             isInCall := true, localStream := captured, currentCall := state.currentCall,
             remotePeer := old(state.caller), sent := old(state.sent) + [CallResponse(old(state.caller), true, self)])
      ensures old(state.localStream) != null ==> unchanged(old(state.localStream))
      ensures old(state.currentCall) != null ==> unchanged(old(state.currentCall))
    {
      if dialOk {
        captured := AnswerConnected(tracks);
      } else {
        captured := AnswerUnconnected(tracks);
      }
    }

    /** AnswerCall when `peer.call` returns a connection. */
    method AnswerConnected(tracks: seq<Track>) returns (captured: array<Track>)
      requires self != ""
      modifies this
      ensures Valid()
      ensures fresh(captured) && captured[..] == tracks
      ensures state.currentCall != null && fresh(state.currentCall)
      ensures state.currentCall.peer == old(state.caller) && state.currentCall.origin == Returned && state.currentCall.open
      ensures state.currentCall.senders[..] == SendersFor(tracks)
      ensures state == old(state).(
                isInCall := true, localStream := captured, currentCall := state.currentCall,
                remotePeer := old(state.caller), sent := old(state.sent) + [CallResponse(old(state.caller), true, self)])
    {
      var callerName := state.caller;
      captured := Capture(tracks);
      state := state.(localStream := captured, sent := state.sent + [CallResponse(callerName, true, self)],
                      remotePeer := callerName);
      DialCaller(callerName, tracks);
    }

    /** AnswerCall when `peer.call` returns no connection: the acceptance
        goes out, then the catch block rejects and resets, which stops the
        new stream's tracks. */
    method AnswerUnconnected(tracks: seq<Track>) returns (captured: array<Track>)
      requires self != ""
      modifies this
      ensures Valid()
      ensures fresh(captured) && captured[..] == Stopped(tracks, None)
      ensures state == Cleared(old(state).(
                         sent := old(state.sent) + [CallResponse(old(state.caller), true, self),
                                                    CallResponse(old(state.caller), false, self)],
                         remotePeer := old(state.caller)))
    {
      var callerName := state.caller;
      captured := Capture(tracks);
      state := state.(localStream := captured, sent := state.sent + [CallResponse(callerName, true, self)],
                      remotePeer := callerName);
      DialFailed();
    }

    /** The end of acceptCall's try block: `peer.call` returned a connection
        to the caller, which sends the local tracks and resets the session
        on `error`; the call then counts as running. */
    method DialCaller(name: string, tracks: seq<Track>)
      requires self != "" && state.localStream != null
      modifies this
      ensures Valid()
      ensures state.currentCall != null && fresh(state.currentCall)
      ensures state.currentCall.peer == name && state.currentCall.origin == Returned && state.currentCall.open
      ensures state.currentCall.senders[..] == SendersFor(tracks)
      ensures state == old(state).(currentCall := state.currentCall, isInCall := true)
    {
      var c := new MediaConnection(name, Returned, tracks);
      state := state.(currentCall := c, isInCall := true);
    }

    /** acceptCall's catch block after `peer.call` returned no connection:
        the old connection is lost without being closed, a rejection follows
        the acceptance and the session is reset. */
    method DialFailed()
      requires self != ""
      modifies this, state.localStream
      ensures Valid()
      ensures state == Cleared(old(state).(sent := old(state.sent) + [CallResponse(old(state.caller), false, self)]))
      ensures old(state.localStream) != null ==>
        old(state.localStream)[..] == Stopped(old(state.localStream[..]), None)
      ensures old(state.currentCall) != null ==> unchanged(old(state.currentCall))
    {
      state := state.(currentCall := null);
      DeclineCall();
    }

    /** cancelCall: emits `call_response` with the client itself as the
        caller and the callee on screen as the responder, then resets. */
    method CancelCall()
      requires Valid()
      modifies this, state.localStream, (if state.currentCall == null then {} else {state.currentCall})`open
      ensures Valid()
      ensures state == Cleared(old(state).(sent := old(state.sent) + [CallResponse(self, false, old(state.callee))]))
      ensures old(state.currentCall) != null ==> !old(state.currentCall).open
      ensures old(state.localStream) != null ==>
        old(state.localStream)[..] == Stopped(old(state.localStream[..]), None)
    {
      state := state.(sent := state.sent + [CallResponse(self, false, state.callee)]);
      ResetCallState();
    }

    /** endCall: emits `call_ended` to the peer on screen, then resets. */
    method EndCall()
      requires Valid()
      modifies this, state.localStream, (if state.currentCall == null then {} else {state.currentCall})`open
      ensures Valid()
      ensures state == Cleared(old(state).(sent := old(state.sent) + [CallEnded(self, old(state.remotePeer))]))
      ensures old(state.currentCall) != null ==> !old(state.currentCall).open
      ensures old(state.localStream) != null ==>
        old(state.localStream)[..] == Stopped(old(state.localStream[..]), None)
    {
      state := state.(sent := state.sent + [CallEnded(self, state.remotePeer)]);
      ResetCallState();
    }

    /** toggleVideo: nothing without a local stream; otherwise flips
        `isVideoEnabled`, applies it to every video track and tells the peer
        on screen. */
    method ToggleVideo()
      requires Valid()
      modifies this, state.localStream
      ensures Valid()
      ensures old(state.localStream) == null ==> state == old(state)
      ensures old(state.localStream) != null ==>
        state == old(state).(isVideoEnabled := !old(state.isVideoEnabled),
                             sent := old(state.sent) + [ToggleMedia(self, old(state.remotePeer), VIDEO, !old(state.isVideoEnabled))])
      ensures old(state.localStream) != null ==>
        old(state.localStream)[..] == WithKindEnabled(old(state.localStream[..]), Video, !old(state.isVideoEnabled))
    {
      if state.localStream == null {
        return;
      }
      state := state.(isVideoEnabled := !state.isVideoEnabled);
      ToggleTrack(state.localStream, Video, state.isVideoEnabled);
      state := state.(sent := state.sent + [ToggleMedia(self, state.remotePeer, VIDEO, state.isVideoEnabled)]);
    }

    /** toggleAudio: nothing without a local stream; otherwise flips
        `isAudioEnabled`, applies it to every audio track and tells the peer
        on screen. */
    method ToggleAudio()
      requires Valid()
      modifies this, state.localStream
      ensures Valid()
      ensures old(state.localStream) == null ==> state == old(state)
      ensures old(state.localStream) != null ==>
        state == old(state).(isAudioEnabled := !old(state.isAudioEnabled),
                             sent := old(state.sent) + [ToggleMedia(self, old(state.remotePeer), AUDIO, !old(state.isAudioEnabled))])
      ensures old(state.localStream) != null ==>
        old(state.localStream)[..] == WithKindEnabled(old(state.localStream[..]), Audio, !old(state.isAudioEnabled))
    {
      if state.localStream == null {
        return;
      }
      state := state.(isAudioEnabled := !state.isAudioEnabled);
      ToggleTrack(state.localStream, Audio, state.isAudioEnabled);
      state := state.(sent := state.sent + [ToggleMedia(self, state.remotePeer, AUDIO, state.isAudioEnabled)]);
    }

    /** switchCallType: nothing unless `isInCall`. Otherwise the call type
        flips and the matching stream is requested (SwitchTo); refused, the
        handler stops there; granted, the new stream is adopted (AdoptStream). */
    method SwitchCallType(media: Option<seq<Track>>)
      requires Valid()
      modifies this, state.localStream, if state.currentCall != null then {state.currentCall.senders} else {}
      ensures Valid()
      ensures !old(state.isInCall) ==> state == old(state)
      ensures !old(state.isInCall) && old(state.localStream) != null ==> unchanged(old(state.localStream))
      ensures !old(state.isInCall) && old(state.currentCall) != null ==> unchanged(old(state.currentCall).senders)
      ensures old(state.isInCall) ==>
        && state.callType == SwitchedType(old(state.callType))
        && state.requested == old(state.requested) + [Plain(old(state.callType) != VIDEO, true)]
      ensures old(state.isInCall) && old(state.callType) == VIDEO ==>
        old(state.localStream)[..] == Stopped(old(state.localStream[..]), Some(Video))
      ensures old(state.isInCall) && old(state.callType) != VIDEO ==> unchanged(old(state.localStream))
      ensures old(state.isInCall) && media.None? ==>
        state == old(state).(callType := state.callType, requested := state.requested)
        && unchanged(old(state.currentCall).senders)
      ensures old(state.isInCall) && media.Some? ==>
        && state.localStream != null && fresh(state.localStream) && state.localStream[..] == media.value
        && state.currentCall == old(state.currentCall)
        && state.currentCall.senders[..] == WithReplacedTracks(old(state.currentCall.senders[..]), media.value)
      ensures old(state.isInCall) && media.Some? ==>
        var completed := FirstTrackless(old(state.currentCall.senders[..])) == old(state.currentCall.senders.Length);
        state == old(state).(
          callType := state.callType, requested := state.requested, localStream := state.localStream,
          isVideoEnabled := if completed then state.callType == VIDEO else old(state.isVideoEnabled),
          isAudioEnabled := if completed then true else old(state.isAudioEnabled))
    {
      if !state.isInCall {
        return;
      }
      SwitchTo();
      if media.None? {
        return;
      }
      AdoptStream(media.value);
    }

    /** The first half of switchCallType's try block: the call type flips;
        leaving video stops the local video tracks; the stream for the new
        type is requested (`{audio: true}` or `{audio: true, video: true}`). */
    method SwitchTo()
      requires state.localStream != null
      modifies this, state.localStream
      ensures state == old(state).(callType := SwitchedType(old(state.callType)),
                                   requested := old(state.requested) + [Plain(old(state.callType) != VIDEO, true)])
      ensures old(state.callType) == VIDEO ==> state.localStream[..] == Stopped(old(state.localStream[..]), Some(Video))
      ensures old(state.callType) != VIDEO ==> unchanged(state.localStream)
    {
      if state.callType == VIDEO {
        state := state.(callType := AUDIO);
        StopTracks(state.localStream, Some(Video));
        state := state.(requested := state.requested + [Plain(false, true)]);
      } else {
        state := state.(callType := VIDEO, requested := state.requested + [Plain(true, true)]);
      }
    }

    /** The second half: the granted stream replaces the local one (the old
        one is not stopped further), the connection's senders take its tracks
        and, when that loop completes, `isVideoEnabled` becomes `callType ===
        'video'` and `isAudioEnabled` true; when the loop throws, the catch
        block only reports it. (The handler's `if (localStream)` always holds
        here, since the stream was just assigned.) */
    method AdoptStream(tracks: seq<Track>)
      requires state.currentCall != null
      modifies this, state.currentCall.senders
      ensures state.localStream != null && fresh(state.localStream) && state.localStream[..] == tracks
      ensures state.currentCall == old(state.currentCall)
      ensures state.currentCall.senders[..] == WithReplacedTracks(old(state.currentCall.senders[..]), tracks)
      ensures
        var completed := FirstTrackless(old(state.currentCall.senders[..])) == old(state.currentCall.senders.Length);
        state == old(state).(
          localStream := state.localStream,
          isVideoEnabled := if completed then state.callType == VIDEO else old(state.isVideoEnabled),
          isAudioEnabled := if completed then true else old(state.isAudioEnabled))
    {
      var stream := Capture(tracks);
      state := state.(localStream := stream);
      if state.currentCall != null {
        var completed := ReplaceSenderTracks(state.currentCall.senders, tracks);
        if !completed {
          return;
        }
      }
      state := state.(isVideoEnabled := state.callType == VIDEO, isAudioEnabled := true);
    }
  }

  // ---------------------------------------------------------------------------
  // Sequences of user actions

  /** Toggling video twice restores `isVideoEnabled`; when the video tracks
      agreed with the flag they are restored too. Two `toggle_media` messages
      go out, the flipped value first. */
  method ToggleVideoTwice(s: CallSession)
    requires s.Valid() && s.state.localStream != null
    modifies s, s.state.localStream
    ensures s.Valid()
    ensures s.state == old(s.state).(sent := s.state.sent)
    ensures KindAgrees(old(s.state.localStream[..]), Video, old(s.state.isVideoEnabled)) ==>
      s.state.localStream[..] == old(s.state.localStream[..])
    ensures s.state.sent == old(s.state.sent) + [ToggleMedia(s.self, s.state.remotePeer, VIDEO, !old(s.state.isVideoEnabled)),
                                                 ToggleMedia(s.self, s.state.remotePeer, VIDEO, old(s.state.isVideoEnabled))]
  {
    ghost var before := s.state.localStream[..];
    ghost var on := s.state.isVideoEnabled;
    ghost var log := s.state.sent;
    var off := ToggleMedia(s.self, s.state.remotePeer, VIDEO, !on);
    var back := ToggleMedia(s.self, s.state.remotePeer, VIDEO, on);
    s.ToggleVideo();
    assert s.state.sent == log + [off];
    s.ToggleVideo();
    assert s.state.sent == (log + [off]) + [back];
    assert (log + [off]) + [back] == log + [off, back];
    if KindAgrees(before, Video, on) {
      ToggleTwiceRestores(before, Video, on);
    }
  }

  /** While in a call, switching the call type twice with both new streams
      granted as requested and every sender carrying a track restores a video
      or audio call type, keeps the call, and leaves the local flags saying
      video is on exactly when the call is a video call. The two requests go
      out in order, and the local stream ends live, with audio, and with
      video exactly when the call is a video call: a video call switched to
      audio and back ends with live audio and video tracks. */
  method SwitchCallTypeTwice(s: CallSession, first: seq<Track>, second: seq<Track>)
    requires s.Valid() && s.state.isInCall && (s.state.callType == VIDEO || s.state.callType == AUDIO)
    requires FirstTrackless(s.state.currentCall.senders[..]) == s.state.currentCall.senders.Length
    requires Satisfies(first, Plain(s.state.callType != VIDEO, true))
    requires Satisfies(second, Plain(s.state.callType == VIDEO, true))
    modifies s, s.state.localStream, s.state.currentCall.senders
    ensures s.Valid() && s.state.isInCall && s.state.currentCall == old(s.state.currentCall)
    ensures s.state.callType == old(s.state.callType)
    ensures s.state.isVideoEnabled == (s.state.callType == VIDEO) && s.state.isAudioEnabled
    ensures s.state.requested == old(s.state.requested) + [Plain(old(s.state.callType) != VIDEO, true),
                                                           Plain(old(s.state.callType) == VIDEO, true)]
    ensures s.state.localStream != null && s.state.localStream[..] == second
    ensures Satisfies(s.state.localStream[..], Plain(s.state.callType == VIDEO, true))
  {
    ghost var log := s.state.requested;
    ghost var t := s.state.callType;
    s.SwitchCallType(Some(first));
    assert s.state.requested == log + [Plain(t != VIDEO, true)];
    s.SwitchCallType(Some(second));
    SwitchedTypeTwice(t);
    assert s.state.requested == (log + [Plain(t != VIDEO, true)]) + [Plain(t == VIDEO, true)];
    assert (log + [Plain(t != VIDEO, true)]) + [Plain(t == VIDEO, true)] == log + [Plain(t != VIDEO, true), Plain(t == VIDEO, true)];
  }
}
