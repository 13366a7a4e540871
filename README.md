# A verified model of a browser video-call client and its signaling relay

The system is a two-party video and voice calling application. The browser
page (static/js/app.js) keeps a call session in module-level variables. It
talks to a Socket.IO relay (main.py) to find online users and to negotiate
calls, and it uses PeerJS media connections to carry the streams. A helper
file (static/js/call.js) enables, stops and tunes media tracks and senders.

The model has five modules:

- `Optional` (optional.dfy): the `Option` type used for nullable references
  and for payload fields a client may leave out.
- `Media` (media.dfy): the helpers of static/js/call.js. A stream is an
  `array<Track>` and a peer connection's senders an `array<Sender>`. The
  loops of `toggleTrack`, `setBitrates` and `optimizePeerConnection`, and the
  stop loops, are methods proved against functions on the old array
  contents. The constraint choice of `getOptimalStream` is a function of the
  call type and of which requests the browser grants.
- `Roster` (roster.dfy): the client's `onlineUsers` list as updated by
  `user_connected` and `user_disconnected`, and the rendered view that leaves
  out the client's own name.
- `Session` (session.dfy): the call session of static/js/app.js as a class
  `CallSession`. Its variables are one record, `state`, which every handler
  replaces by an updated copy. The three names that the page keeps only as
  screen text (the announced caller, the user being called, the peer of the
  running call) are explicit fields. Every socket event, PeerJS event and
  button action is a method. What goes out on the socket is appended to
  `state.sent`, and each `getUserMedia` request to `state.requested`. Whether
  a request is granted is a parameter (`media`, None when refused), and so is
  whether `peer.call` returns a connection (`dialOk`). A PeerJS connection is
  a class `MediaConnection` with its peer, the code path that made it, its
  senders and an open flag.
- `Relay` (relay.dfy): the relay of main.py as a class `SignalingServer`
  with its three tables and the log `emitted` of every `sio.emit`, with
  its target. `connected_users` is a sequence of bindings in insertion
  order, because the `disconnect` handler's scan-and-break depends on that
  order. `online_users` is a set and `active_calls` a map. A payload field
  read with `data.get` is an `Option`. The invariant `Valid` holds across
  every handler: each name is bound once, no bound name is empty, and the
  bound names are exactly `online_users`.

The model follows the code as written. In particular:

- The calling side never sets `isInCall`. Only a callee that accepts does
  (static/js/app.js:463). The busy guard of `incoming_call` and the `call`
  handler therefore protect only the callee side.
- The socket's `disconnect` event only shows a notice (static/js/app.js:258-261).
  It does not reset the session.
- `cancelCall` emits `call_response` with the client itself as `caller`
  (static/js/app.js:550-558). So the relay sends `call_rejected` back to the
  canceller, and the called user is never told (main.py:113-138).
- `switchCallType` flips `callType` before asking for the new stream. A
  refused request therefore leaves the type flipped and the old stream in
  place, with its video tracks already stopped when leaving video. When the
  sender loop throws at a sender without a track, the flag update is skipped.
- The local stream replaced by `initiateCall` or `acceptCall` is dropped
  with its tracks left live, and so is a connection replaced by `startCall`,
  `acceptCall` or the `call` handler, which is left open. `switchCallType`
  stops the old stream's video tracks when it leaves video; the old stream's
  remaining tracks (its audio, or every track when it leaves audio) stay
  live.
- When `peer.call` returns no connection in `acceptCall`, the acceptance has
  already gone out; the catch block then sends a rejection and the reset
  stops the new stream's tracks.
- The `error` and `close` handlers reset the session whichever connection
  raises them, including a connection that is no longer current. Every
  handler that closes a connection may change only its `open` flag (the
  frame is `currentCall`open`), so its origin, and with it the handling of
  its later `error` and `close` events, survives the reset.
- The relay's `disconnect` leaves `active_calls` as it was. It unbinds only
  the first name bound to the sid when one sid registered several names.

## Model

| member | source | states |
|---|---|---|
| Media.Capture | static/js/app.js:393 | a granted `getUserMedia` yields a new stream holding exactly the granted tracks |
| Media.WithKindEnabled | static/js/call.js:186-190 | the tracks of the given kind get the flag; kind and liveness of every track are kept; tracks of other kinds are untouched |
| Media.WithKindEnabledTwice | static/js/call.js:183-190 | setting a kind's flag twice equals setting it once to the later value |
| Media.ToggleTwiceRestores | static/js/app.js:573-614 | toggling a kind off and on (or on and off) restores the tracks when they agreed with the flag |
| Media.ToggleTrack | static/js/call.js:183-190 | a null stream is left alone; otherwise the new stream is exactly `WithKindEnabled` of the old one |
| Media.Stopped | static/js/call.js:199-202 | every selected track (all, or the video ones) ends; enabled flags and kinds are kept; unselected tracks are untouched |
| Media.StopTracks | static/js/app.js:732 | the loop leaves exactly `Stopped` of the old stream |
| Media.BitrateStepFor | static/js/call.js:157-170 | a trackless sender is skipped; an empty encodings list throws; otherwise the first encoding gets the kind's cap, `[{}]` is installed when the list is missing, the other encodings and the preference are kept |
| Media.HaltIndex | static/js/call.js:154-174 | the first sender at which the loop throws or `setParameters` rejects, with no halt before it |
| Media.BitratesApplied | static/js/call.js:153-175 | tracks and preferences never change; trackless senders and every sender from the halt on are untouched |
| Media.BitratesCapReachedSenders | static/js/call.js:160-167 | each sender with a track before the halt ends with its first encoding capped at `videoBitrate*1000` or `audioBitrate*1000` |
| Media.BitratesReachEverySender | static/js/call.js:154-171 | with no empty encodings list and no rejection the loop reaches every sender |
| Media.SetBitrates | static/js/call.js:153-175 | a null connection is left alone (its throw is caught); otherwise the senders become `BitratesApplied` of the old senders, with defaults 1500 and 50 kbps |
| Media.FirstTrackless | static/js/call.js:98-99 | the index of the first sender without a track, where `sender.track.kind` throws |
| Media.Optimized | static/js/call.js:98-105 | a sender changes exactly when it is before the first trackless sender, sends video and has no preference, and then gets `'maintain-framerate'`; tracks and encodings never change |
| Media.OptimizePeerConnection | static/js/call.js:94-106 | a null connection is a no-op; otherwise the senders become `Optimized`; the result says whether the loop ran to the end |
| Media.GetOptimalStream | static/js/call.js:73-87 | a stream is obtained iff the tuned or the fallback request is granted; the tuned request asks for video iff the type is `'video'`; the fallback is used only when the tuned request is refused |
| Media.SwitchToAudioCall | static/js/call.js:198-206 | the video tracks of a given stream end, then audio without video is requested |
| Media.SwitchToVideoCall | static/js/call.js:212-214 | camera and microphone are requested |
| Roster.Without | static/js/app.js:193 | every occurrence of the name is removed, and every other name keeps its multiplicity |
| Roster.WithoutAppend | static/js/app.js:193 | the filter distributes over concatenation, so it keeps the order of the other names |
| Roster.WithoutNoDuplicates | static/js/app.js:193 | removal keeps a list free of duplicates |
| Roster.WithoutCommutes | static/js/app.js:193 | removing two names in either order gives the same list |
| Roster.Added | static/js/app.js:184-190 | the name is listed afterwards; the list is unchanged iff the name was listed; no duplicate is introduced |
| Roster.AddedThenWithout | static/js/app.js:184-201 | a user who connects and then disconnects leaves a roster without that name as it was |
| Roster.RenderedView | static/js/app.js:334 | the rendered roster never shows self, shows every other listed user, and follows `user_connected`/`user_disconnected` incrementally |
| Session.SendersFor | static/js/app.js:503 | a new connection has one sender per local track, each sending that track |
| Session.MediaConnection.constructor | static/js/app.js:503 | a new open connection to the peer, tagged with the code path that made it |
| Session.MediaConnection.Answer | static/js/app.js:289-306 | the offered connection becomes an answered one that sends the local tracks, and stays as open as it was |
| Session.MediaConnection.Close | static/js/app.js:721-727 | the connection is closed |
| Session.FirstOfKind | static/js/app.js:664 | the first track of the kind, and None iff the stream has none |
| Session.WithReplacedTracks | static/js/app.js:660-668 | before the first trackless sender, each sender whose kind the stream has sends the stream's first track of that kind; all other senders and all parameters are untouched |
| Session.ReplaceSenderTracks | static/js/app.js:660-668 | the senders become `WithReplacedTracks` of the old senders; the result is false iff the loop threw |
| Session.SwitchedType | static/js/app.js:621-644 | the switched type is video or audio and differs from the old one |
| Session.SwitchedTypeTwice | static/js/app.js:617-681 | switching twice restores a video or audio type |
| Session.Cleared | static/js/app.js:717-751 | the reset state is fully cleared and keeps the roster, the names on screen and the logs |
| Session.CallSession.constructor | static/js/app.js:124-143 | a logged-in session with a non-empty name and the initial defaults |
| Session.CallSession.ResetCallState | static/js/app.js:717-761 | the session becomes `Cleared`; the old connection is closed, with only its `open` flag changed, and every old local track stopped |
| Session.CallSession.OnConnect | static/js/app.js:159-163 | `register_user` with the own name goes out |
| Session.CallSession.OnReconnect | static/js/app.js:170-177 | `register_user` goes out again |
| Session.CallSession.OnOnlineUsers | static/js/app.js:179-182 | the snapshot replaces the roster |
| Session.CallSession.OnUserConnected | static/js/app.js:184-190 | the roster becomes `Added`; a listed name changes nothing; no duplicate is introduced |
| Session.CallSession.OnUserDisconnected | static/js/app.js:192-201 | the name leaves the roster; in a call with that user the session resets, closing the connection and stopping the local tracks; otherwise the record, the stream and the connection are as they were |
| Session.CallSession.OnIncomingCall | static/js/app.js:204-219 | while in a call, only a refusal to the announced caller goes out; otherwise the type and the caller are recorded |
| Session.CallSession.StartCall | static/js/app.js:491-547 | with a stream and a connection, a new dialled connection sends the local tracks, and the old stream and old connection are left as they were; without a connection the session resets, stopping the local tracks and leaving the old connection open; without a stream the session resets and closes the connection |
| Session.CallSession.OnCallAccepted | static/js/app.js:221-226 | the responder is shown as peer and dialled as StartCall states (a fresh open Dialled connection sending the local tracks), with the same teardown and framing; `isInCall` is never set |
| Session.CallSession.OnCallRejected | static/js/app.js:228-231 | the session resets; the old connection is closed and every old local track stopped |
| Session.CallSession.OnPeerEndedCall | static/js/app.js:233-236 | the session resets; the old connection is closed and every old local track stopped |
| Session.CallSession.OnCallError | static/js/app.js:253-256 | the session resets; the old connection is closed and every old local track stopped |
| Session.CallSession.OnPeerToggledMedia | static/js/app.js:238-246 | a video or audio toggle sets that peer flag; any other type changes nothing |
| Session.CallSession.OnPeerCall | static/js/app.js:284-311 | when not in a call and holding a stream, the offer itself becomes the current connection, answered with the local tracks, and the previous connection is left open; otherwise the offer is closed and nothing else changes |
| Session.CallSession.OnRemoteStream | static/js/app.js:295-301 | the delivered stream becomes the remote stream |
| Session.CallSession.OnConnectionError | static/js/app.js:303-306 | an error on a dialled or returned connection resets, closing the current connection and stopping the local tracks; on an answered one the record, the stream and the connection are as they were |
| Session.CallSession.OnConnectionClose | static/js/app.js:527-530 | a close of a dialled connection resets, closing the current connection and stopping the local tracks; on any other the record, the stream and the connection are as they were |
| Session.CallSession.InitiateCall | static/js/app.js:376-411 | refused while in a call, with nothing changed; otherwise the type and callee are recorded and the stream requested; granted, `request_call` goes out and the old stream is dropped with its tracks live; refused, the session resets, closing the connection and stopping the old tracks |
| Session.CallSession.AcceptCall | static/js/app.js:414-488 | rejecting or a refused stream emits a refusal and resets, closing the connection and stopping the old tracks; a granted stream is answered as AnswerCall states, with the old stream and connection left as they were |
| Session.CallSession.DeclineCall | static/js/app.js:466-487 | a refusal to the caller on screen goes out, then the session resets; the old connection is closed and every old local track stopped |
| Session.CallSession.AnswerCall | static/js/app.js:416-463 | the stream becomes local, the acceptance goes out, the caller is dialled over a fresh open connection sending the new tracks and `isInCall` set; without a connection a refusal follows, the session resets and the new stream's tracks stop; the old stream and connection are left as they were either way |
| Session.CallSession.AcceptRefused | static/js/app.js:416-487 | the refused request is logged, a refusal goes out, the old connection is closed, the old tracks stop and the session resets |
| Session.CallSession.AcceptGranted | static/js/app.js:416-463 | the granted request is logged and the call answered as AnswerCall states |
| Session.CallSession.AnswerConnected | static/js/app.js:426-463 | the new stream becomes local, the acceptance goes out and the caller is dialled: a fresh open Returned connection sending its tracks |
| Session.CallSession.AnswerUnconnected | static/js/app.js:426-476 | the acceptance goes out, then a refusal, the reset stops the new stream's tracks and nothing is left dialled |
| Session.CallSession.DialCaller | static/js/app.js:441-463 | a new open returned connection to the caller sends the local tracks and `isInCall` is set |
| Session.CallSession.DialFailed | static/js/app.js:443-476 | the missing connection is dropped and the old one left open, a refusal goes out, the session resets and the local tracks stop |
| Session.CallSession.CancelCall | static/js/app.js:550-558 | `call_response` with self as caller and the callee as responder goes out, then the session resets; the old connection is closed and every old local track stopped |
| Session.CallSession.EndCall | static/js/app.js:561-570 | `call_ended` to the peer on screen goes out, then the session resets; the old connection is closed and every old local track stopped |
| Session.CallSession.ToggleVideo | static/js/app.js:573-592 | a no-op without a stream; otherwise the flag flips, every video track takes it, and `toggle_media` with the new value goes out |
| Session.CallSession.ToggleAudio | static/js/app.js:595-614 | the same for audio |
| Session.CallSession.SwitchCallType | static/js/app.js:617-681 | a no-op when not in a call; otherwise the type flips, the new stream is requested, and when granted the senders and the flags are updated |
| Session.CallSession.SwitchTo | static/js/app.js:621-647 | the type flips, leaving video stops the video tracks, and the stream for the new type is requested |
| Session.CallSession.AdoptStream | static/js/app.js:634-672 | the granted stream becomes local, the senders take its tracks and, when that loop completes, the flags become video-iff-video-call and audio on |
| Session.ToggleVideoTwice | static/js/app.js:573-592 | toggling twice restores the flag and, when the tracks agreed with it, the tracks; two `toggle_media` messages go out |
| Session.SwitchCallTypeTwice | static/js/app.js:617-681 | in a call, with each granted stream meeting its request, two switches restore the call type, log both requests in order, leave video enabled iff it is a video call, and end with a live stream that has audio and has video iff it is a video call |
| Relay.Names | main.py:35 | the names of the bindings, in order |
| Relay.Keys | main.py:35 | every bound name is a key |
| Relay.KeysAreNames | main.py:35 | the keys are exactly the bound names |
| Relay.Lookup | main.py:94-95 | None iff the name is not a key; otherwise the name's binding |
| Relay.Bind | main.py:75 | the new key set is the old one plus the name; a bound name keeps its place; a new name is appended |
| Relay.Unbind | main.py:62 | with each key once, the new key set is the old one minus the name; removing an unbound name changes nothing; no binding is added |
| Relay.UnbindAt | main.py:62 | deleting a name removes its first binding and keeps every other binding in order |
| Relay.BindLookup | main.py:75 | after binding, the name reads back the sid, other names read back as before, and keys stay unique |
| Relay.UnbindLookup | main.py:62 | after unbinding, the name is unbound, other names read back as before, and keys stay unique |
| Relay.UnbindBind | main.py:62-75 | binding a new name and unbinding it restores the dict |
| Relay.UnbindAppended | main.py:62-75 | removing a just-appended new name restores the dict |
| Relay.FirstNameFor | main.py:54-58 | the first binding with the sid in insertion order, and None iff no binding has it |
| Relay.FirstNameForIsBound | main.py:54-62 | with unique keys the name found is bound to the sid |
| Relay.LookupAt | main.py:35 | with unique keys each binding is what its name reads back |
| Relay.FindUsernameBySid | main.py:54-58 | the scan-and-break returns `FirstNameFor` |
| Relay.SignalingServer.constructor | main.py:35-37 | empty tables and no emits |
| Relay.SignalingServer.RegisterUser | main.py:72-83 | a non-empty name is bound and goes online; the snapshot goes to the registrant only and `user_connected` to all others; any other name changes nothing; the invariant is kept |
| Relay.SignalingServer.Disconnect | main.py:52-69 | the first name bound to the sid leaves both tables and `user_disconnected` is broadcast; an unknown sid changes nothing; `active_calls` is kept |
| Relay.SignalingServer.RequestCall | main.py:86-105 | a bound callee's sid gets `incoming_call` with the type defaulting to `'video'`; otherwise only the requester gets `call_error` |
| Relay.SignalingServer.CallResponse | main.py:108-138 | an unbound caller changes nothing; accepted, the caller gets `call_accepted` and both sids' entries name each other; otherwise the caller gets `call_rejected` and `active_calls` is kept |
| Relay.SignalingServer.CallEnded | main.py:141-153 | a bound peer gets `peer_ended_call`; only the sender's entry is removed |
| Relay.SignalingServer.ToggleMedia | main.py:156-170 | a bound peer gets `peer_toggled_media` with the user, type and flag; nothing else changes |
| Relay.SignalingServer.Signal | main.py:173-182 | a bound addressee gets the `from` and `signal` fields; nothing else changes |

## Left out

- Rendering, screens and notifications (the waiting, calling, incoming and in-call screens, the user list's elements, button classes and timers): they only show state. The model keeps the state they read and write.
- Socket.IO and PeerJS construction, reconnection and the STUN configuration: these are foreign libraries. Only the events they deliver are modelled.
- The client's `signal`, `connect_error` and socket `disconnect` handlers and the PeerJS `open`, `error`, `close` and `disconnected` handlers: they only log, notify or reconnect the library.
- Media.OptimizePeerConnection: the `peerConnection.setOption('DtlsSrtpKeyAgreement', true)` call after the loop (static/js/call.js:110-112) is a transport option of a foreign object and is not modelled.
- Session.CallSession.ToggleVideo, Session.CallSession.ToggleAudio, Media.StopTracks and Session.CallSession.ResetCallState: a connection's senders hold copies of the local tracks, not the track objects themselves, so enabling, disabling or stopping a local track is not reflected in the tracks the connection's senders carry (in the source they are the same objects).
- Session.SwitchCallTypeTwice: a granted stream meeting its request (`Satisfies`) is a precondition of this scenario; the handlers themselves accept any granted tracks.
- `getUserMedia` itself, the tuned constraint objects, `createOptimizedPeer` and `monitorConnectionState`: an acquisition is a parameter, the constraints are named values, and the monitor only logs.
- `sender.replaceTrack` and `setParameters`: they return promises. The model treats them as completing at once, with a `setParameters` rejection given by the `refuses` parameter of SetBitrates.
- Async interleaving: each handler runs atomically, and a `getUserMedia` await is a parameter of the handler.
- The FastAPI app, CORS, the home route and the server's `connect` handler: they serve HTTP or only log.
- Payload values other than a missing field or a string (JSON null, numbers in name fields): in the relay each payload field is an `Option` of its expected type.
- Missing or `undefined` payload fields on the client: the client handlers (Session.CallSession.OnIncomingCall, OnPeerToggledMedia, OnUserConnected, OnUserDisconnected, OnCallAccepted and the others) take plain `string` and `bool` values, so a handler storing `undefined`, as `callType = type` does (static/js/app.js:217), is not modelled.
- Media.SetBitrates: `videoBitrate` and `audioBitrate` are JavaScript numbers (static/js/call.js:153, 165-167) modelled as `int`, so a fractional kbps value and its product with 1000 are not covered.
- The order of the `online_users` list sent to a registrant: Python's set order is unspecified, so the event carries the set.
- `active_calls` `start_time`: it is always None.
- Session.CallSession.OnConnectionError and Session.CallSession.OnConnectionClose: the connection raising the event is a parameter; which connection a JavaScript closure captured is not tracked.
- Media.SetBitrates: track kinds other than audio and video are not modelled, so the source's case that leaves such a sender's cap unset does not arise.
