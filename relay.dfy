/** The signaling relay of main.py: three in-memory tables and the Socket.IO
    handlers that route each client message to the sid that should receive
    it.

    `connected_users` (username to sid) is a Python dict, whose iteration
    order is insertion order and matters to the `disconnect` scan; it is
    modelled as a sequence of bindings in that order. `online_users` is a
    set and `active_calls` (sid to call info) a map. Every `sio.emit` is
    appended to the log `emitted` with its target. A payload field read with
    `data.get(...)` is an `Option`: None when the client left it out. */
module Relay {
  import opened Optional

  type Sid = string

  /** Opaque WebRTC signaling data, relayed untouched. */
  type SignalData = nat

  /** One entry of `connected_users`. */
  datatype Binding = Binding(username: string, sid: Sid)

  /** The `active_calls` value: the peer's name (`start_time` is always None). */
  datatype CallInfo = CallInfo(peer: Option<string>)

  /** The addressee of an emit: one sid (`room=sid`), every sid but one
      (`skip_sid=sid`), or every connected sid. */
  datatype Target = Room(sid: Sid) | AllExcept(sid: Sid) | Everyone

  /** The events the relay emits, with their payloads. */
  datatype Event =
    | OnlineUsers(users: set<string>)
    | UserConnected(username: string)
    | UserDisconnected(username: string)
    | IncomingCall(caller: Option<string>, callType: string)
    | CallError(message: string)
    | CallAccepted(responder: Option<string>)
    | CallRejected(responder: Option<string>)
    | PeerEndedCall(peer: Option<string>)
    | PeerToggledMedia(peer: Option<string>, mediaType: Option<string>, enabled: Option<bool>)
    | Signal(from: Option<string>, signal: Option<SignalData>)

  datatype Emit = Emit(target: Target, event: Event)

  const DEFAULT_CALL_TYPE: string := "video"

  // ---------------------------------------------------------------------------
  // connected_users as an insertion-ordered dict

  /** The usernames bound, in insertion order. */
  function Names(bindings: seq<Binding>): (r: seq<string>)
    ensures |r| == |bindings|
    ensures forall i :: 0 <= i < |r| ==> r[i] == bindings[i].username
  {
    if bindings == [] then [] else [bindings[0].username] + Names(bindings[1..])
  }

  /** The key set of the dict. */
  function Keys(bindings: seq<Binding>): (r: set<string>)
    ensures forall b :: b in bindings ==> b.username in r
  {
    if bindings == [] then {} else {bindings[0].username} + Keys(bindings[1..])
  }

  /** The keys are exactly the bound names. */
  lemma {:induction false} KeysAreNames(bindings: seq<Binding>)
    ensures forall u :: u in Keys(bindings) <==> u in Names(bindings)
  {
    if bindings != [] {
      KeysAreNames(bindings[1..]);
      assert Names(bindings) == [bindings[0].username] + Names(bindings[1..]);
    }
  }

  /** A dict has each key once. */
  predicate UniqueNames(bindings: seq<Binding>) {
    bindings == [] || (bindings[0].username !in Keys(bindings[1..]) && UniqueNames(bindings[1..]))
  }

  /** `connected_users.get(name)`: the sid bound to `name`, if any. */
  function Lookup(bindings: seq<Binding>, name: string): (r: Option<Sid>)
    ensures r.None? <==> name !in Keys(bindings)
    ensures r.Some? ==> Binding(name, r.value) in bindings
  {
    if bindings == [] then None
    else if bindings[0].username == name then Some(bindings[0].sid)
    else Lookup(bindings[1..], name)
  }

  /** A key read with `data.get`: a missing key (None) is never in the dict. */
  function LookupField(bindings: seq<Binding>, name: Option<string>): Option<Sid> {
    if name.Some? then Lookup(bindings, name.value) else None
  }

  /** `connected_users[name] = sid`: a bound name keeps its place and takes
      the new sid; a new name is appended. */
  function Bind(bindings: seq<Binding>, name: string, sid: Sid): (r: seq<Binding>)
    ensures Keys(r) == Keys(bindings) + {name}
    ensures name in Keys(bindings) ==> Names(r) == Names(bindings)
    ensures name !in Keys(bindings) ==> r == bindings + [Binding(name, sid)]
  {
    if bindings == [] then [Binding(name, sid)]
    else if bindings[0].username == name then
      assert Names([Binding(name, sid)] + bindings[1..]) == [name] + Names(bindings[1..]);
      [Binding(name, sid)] + bindings[1..]
    else
      var r := [bindings[0]] + Bind(bindings[1..], name, sid);
      assert r[1..] == Bind(bindings[1..], name, sid);
      assert name !in Keys(bindings) ==> r == bindings + [Binding(name, sid)] by {
        if name !in Keys(bindings) {
          assert bindings == [bindings[0]] + bindings[1..];
        }
      }
      r
  }

  /** `del connected_users[name]`. */
  function Unbind(bindings: seq<Binding>, name: string): (r: seq<Binding>)
    ensures UniqueNames(bindings) ==> Keys(r) == Keys(bindings) - {name}
    ensures name !in Keys(bindings) ==> r == bindings
    ensures forall b :: b in r ==> b in bindings
  {
    if bindings == [] then []
    else if bindings[0].username == name then bindings[1..]
    else
      var r := [bindings[0]] + Unbind(bindings[1..], name);
      assert r[1..] == Unbind(bindings[1..], name);
      assert name !in Keys(bindings) ==> r == bindings by {
        if name !in Keys(bindings) {
          assert bindings == [bindings[0]] + bindings[1..];
        }
      }
      r
  }

  /** Deleting a name removes its first binding and keeps every other
      binding in its place, so the insertion order the disconnect scan reads
      survives. */
  lemma {:induction false} UnbindAt(bindings: seq<Binding>, i: nat)
    requires i < |bindings|
    requires forall j :: 0 <= j < i ==> bindings[j].username != bindings[i].username
    ensures Unbind(bindings, bindings[i].username) == bindings[..i] + bindings[i + 1..]
  {
    if i > 0 {
      var rest := bindings[1..];
      assert rest[i - 1] == bindings[i];
      UnbindAt(rest, i - 1);
      assert bindings[..i] == [bindings[0]] + rest[..i - 1];
      assert bindings[i + 1..] == rest[i..];
    }
  }

  /** After `connected_users[name] = sid` the name reads back `sid`, every
      other name reads back what it did, and the dict still has each key once. */
  lemma {:induction false} BindLookup(bindings: seq<Binding>, name: string, sid: Sid, other: string)
    requires UniqueNames(bindings)
    ensures UniqueNames(Bind(bindings, name, sid))
    ensures Lookup(Bind(bindings, name, sid), name) == Some(sid)
    ensures other != name ==> Lookup(Bind(bindings, name, sid), other) == Lookup(bindings, other)
  {
    if bindings != [] && bindings[0].username != name {
      BindLookup(bindings[1..], name, sid, other);
      var r := Bind(bindings, name, sid);
      assert r[0] == bindings[0] && r[1..] == Bind(bindings[1..], name, sid);
    } else if bindings != [] {
      var r := Bind(bindings, name, sid);
      assert r[0] == Binding(name, sid) && r[1..] == bindings[1..];
    }
  }

  /** After `del connected_users[name]` the name is unbound, every other name
      reads back what it did, and the dict still has each key once. */
  lemma {:induction false} UnbindLookup(bindings: seq<Binding>, name: string, other: string)
    requires UniqueNames(bindings)
    ensures UniqueNames(Unbind(bindings, name))
    ensures Lookup(Unbind(bindings, name), name).None?
    ensures other != name ==> Lookup(Unbind(bindings, name), other) == Lookup(bindings, other)
  {
    if bindings != [] && bindings[0].username != name {
      UnbindLookup(bindings[1..], name, other);
      var r := Unbind(bindings, name);
      assert r[0] == bindings[0] && r[1..] == Unbind(bindings[1..], name);
    }
  }

  /** Registering a new name and removing it again restores the dict. */
  lemma UnbindBind(bindings: seq<Binding>, name: string, sid: Sid)
    requires name !in Keys(bindings)
    ensures Unbind(Bind(bindings, name, sid), name) == bindings
  {
    UnbindAppended(bindings, Binding(name, sid));
  }

  lemma {:induction false} UnbindAppended(bindings: seq<Binding>, b: Binding)
    requires b.username !in Keys(bindings)
    ensures Unbind(bindings + [b], b.username) == bindings
  {
    if bindings != [] {
      assert (bindings + [b])[1..] == bindings[1..] + [b];
      UnbindAppended(bindings[1..], b);
      assert bindings == [bindings[0]] + bindings[1..];
    }
  }

  // ---------------------------------------------------------------------------
  // The scan of disconnect

  /** The first username bound to `sid`, in insertion order. */
  function FirstNameFor(bindings: seq<Binding>, sid: Sid): (r: Option<string>)
    ensures r.None? <==> forall i :: 0 <= i < |bindings| ==> bindings[i].sid != sid
    ensures r.Some? ==> exists i :: 0 <= i < |bindings| && bindings[i] == Binding(r.value, sid)
                                  && forall j :: 0 <= j < i ==> bindings[j].sid != sid
  {
    if bindings == [] then None
    else if bindings[0].sid == sid then Some(bindings[0].username)
    else
      var r := FirstNameFor(bindings[1..], sid);
      assert r.Some? ==> exists i :: 0 <= i < |bindings[1..]| && bindings[1..][i] == Binding(r.value, sid)
                                   && forall j :: 0 <= j < i ==> bindings[1..][j].sid != sid;
      r
  }

  /** With each key once, the name the scan finds is bound to that sid. */
  lemma FirstNameForIsBound(bindings: seq<Binding>, sid: Sid)
    requires UniqueNames(bindings)
    requires FirstNameFor(bindings, sid).Some?
    ensures Lookup(bindings, FirstNameFor(bindings, sid).value) == Some(sid)
  {
    var name := FirstNameFor(bindings, sid).value;
    var i :| 0 <= i < |bindings| && bindings[i] == Binding(name, sid);
    LookupAt(bindings, i);
  }

  lemma {:induction false} LookupAt(bindings: seq<Binding>, i: nat)
    requires UniqueNames(bindings) && i < |bindings|
    ensures Lookup(bindings, bindings[i].username) == Some(bindings[i].sid)
  {
    if i > 0 {
      assert bindings[0].username != bindings[i].username;
      assert bindings[1..][i - 1] == bindings[i];
      LookupAt(bindings[1..], i - 1);
    }
  }

  /** `for uname, user_sid in connected_users.items(): if user_sid == sid:
      username = uname; break`. */
  method FindUsernameBySid(bindings: seq<Binding>, sid: Sid) returns (username: Option<string>)
    ensures username == FirstNameFor(bindings, sid)
  {
    username := None;
    var i := 0;
    while i < |bindings|
      invariant 0 <= i <= |bindings|
      invariant FirstNameFor(bindings, sid) == FirstNameFor(bindings[i..], sid)
    {
      assert bindings[i..][1..] == bindings[i + 1..];
      if bindings[i].sid == sid {
        username := Some(bindings[i].username);
        break;
      }
      i := i + 1;
    }
    assert i == |bindings| ==> bindings[i..] == [];
  }

  // ---------------------------------------------------------------------------
  // The server

  /** `if username:` for a string field: present and non-empty. */
  predicate Truthy(s: Option<string>) {
    s.Some? && s.value != ""
  }

  /** How an f-string shows a field read with `data.get`: None prints as "None". */
  function Shown(s: Option<string>): string {
    if s.Some? then s.value else "None"
  }

  /** The `call_error` text of request_call. */
  function NotAvailable(callee: Option<string>): string {
    "User " + Shown(callee) + " is not available"
  }

  class SignalingServer {
    var connectedUsers: seq<Binding>
    var onlineUsers: set<string>
    var activeCalls: map<Sid, CallInfo>
    var emitted: seq<Emit>

    /** Each name is bound once, only non-empty names are bound, and the
        bound names are exactly the online users. */
    ghost predicate Valid()
      reads this
    {
      && UniqueNames(connectedUsers)
      && "" !in Keys(connectedUsers)
      && Keys(connectedUsers) == onlineUsers
    }

    constructor ()
      ensures Valid()
      ensures connectedUsers == [] && onlineUsers == {} && activeCalls == map[] && emitted == []
    {
      connectedUsers := [];
      onlineUsers := {};
      activeCalls := map[];
      emitted := [];
    }

    /** register_user: a present, non-empty name is bound to the sid (a name
        bound before moves to the new sid) and goes online; the registering sid
        gets the online users, every other sid `user_connected`. Any other
        name changes nothing and emits nothing. */
    method RegisterUser(sid: Sid, username: Option<string>)
      requires Valid()
      modifies this
      ensures Valid()
      ensures activeCalls == old(activeCalls)
      ensures Truthy(username) ==>
        && connectedUsers == Bind(old(connectedUsers), username.value, sid)
        && Lookup(connectedUsers, username.value) == Some(sid)
        && onlineUsers == old(onlineUsers) + {username.value}
        && emitted == old(emitted) + [Emit(Room(sid), OnlineUsers(onlineUsers)),
                                      Emit(AllExcept(sid), UserConnected(username.value))]
      ensures !Truthy(username) ==>
        connectedUsers == old(connectedUsers) && onlineUsers == old(onlineUsers) && emitted == old(emitted)
    {
      if Truthy(username) {
        var name := username.value;
        BindLookup(connectedUsers, name, sid, name);
        connectedUsers := Bind(connectedUsers, name, sid);
        onlineUsers := onlineUsers + {name};
        emitted := emitted + [Emit(Room(sid), OnlineUsers(onlineUsers)), Emit(AllExcept(sid), UserConnected(name))];
      }
    }

    /** disconnect: the first name bound to the sid, if any, is unbound,
        goes offline and is announced to everyone; an unknown sid changes
        nothing. `active_calls` is left as it was either way. */
    method Disconnect(sid: Sid)
      requires Valid()
      modifies this
      ensures Valid()
      ensures activeCalls == old(activeCalls)
      ensures FirstNameFor(old(connectedUsers), sid).Some? ==>
        var name := FirstNameFor(old(connectedUsers), sid).value;
        && connectedUsers == Unbind(old(connectedUsers), name)
        && Lookup(connectedUsers, name).None?
        && onlineUsers == old(onlineUsers) - {name}
        && emitted == old(emitted) + [Emit(Everyone, UserDisconnected(name))]
      ensures FirstNameFor(old(connectedUsers), sid).None? ==>
        connectedUsers == old(connectedUsers) && onlineUsers == old(onlineUsers) && emitted == old(emitted)
    {
      var username := FindUsernameBySid(connectedUsers, sid);
      if username.Some? {
        var name := username.value;
        if name != "" {
          UnbindLookup(connectedUsers, name, name);
          connectedUsers := Unbind(connectedUsers, name);
          onlineUsers := onlineUsers - {name};
          emitted := emitted + [Emit(Everyone, UserDisconnected(name))];
        }
      }
    }

    /** request_call: `incoming_call` with the caller and the type (`'video'`
        when the field is missing) goes to the callee's sid when the callee is
        bound; otherwise `call_error` goes back to the requester. No table
        changes. */
    method RequestCall(sid: Sid, caller: Option<string>, callee: Option<string>, callType: Option<string>)
      requires Valid()
      modifies this
      ensures Valid()
      ensures connectedUsers == old(connectedUsers) && onlineUsers == old(onlineUsers) && activeCalls == old(activeCalls)
      ensures LookupField(connectedUsers, callee).Some? ==>
        emitted == old(emitted) + [Emit(Room(LookupField(connectedUsers, callee).value),
                                        IncomingCall(caller, callType.GetOr(DEFAULT_CALL_TYPE)))]
      ensures LookupField(connectedUsers, callee).None? ==>
        emitted == old(emitted) + [Emit(Room(sid), CallError(NotAvailable(callee)))]
    {
      var calleeSid := LookupField(connectedUsers, callee);
      if calleeSid.Some? {
        emitted := emitted + [Emit(Room(calleeSid.value), IncomingCall(caller, callType.GetOr(DEFAULT_CALL_TYPE)))];
      } else {
        emitted := emitted + [Emit(Room(sid), CallError(NotAvailable(callee)))];
      }
    }

    /** call_response: nothing unless the caller is bound. Accepted,
        `call_accepted` goes to the caller's sid and both sids' `active_calls`
        entries name each other; rejected (or `accepted` missing or false),
        `call_rejected` goes to the caller's sid and `active_calls` is kept. */
    method CallResponse(sid: Sid, caller: Option<string>, accepted: Option<bool>, responder: Option<string>)
      requires Valid()
      modifies this
      ensures Valid()
      ensures connectedUsers == old(connectedUsers) && onlineUsers == old(onlineUsers)
      ensures LookupField(connectedUsers, caller).None? ==> activeCalls == old(activeCalls) && emitted == old(emitted)
      ensures LookupField(connectedUsers, caller).Some? && accepted == Some(true) ==>
        var callerSid := LookupField(connectedUsers, caller).value;
        && emitted == old(emitted) + [Emit(Room(callerSid), CallAccepted(responder))]
        && activeCalls == old(activeCalls)[callerSid := CallInfo(responder)][sid := CallInfo(caller)]
        && activeCalls[sid] == CallInfo(caller)
        && (callerSid != sid ==> activeCalls[callerSid] == CallInfo(responder))
      ensures LookupField(connectedUsers, caller).Some? && accepted != Some(true) ==>
        && emitted == old(emitted) + [Emit(Room(LookupField(connectedUsers, caller).value), CallRejected(responder))]
        && activeCalls == old(activeCalls)
    {
      var callerSid := LookupField(connectedUsers, caller);
      if callerSid.Some? {
        if accepted == Some(true) {
          emitted := emitted + [Emit(Room(callerSid.value), CallAccepted(responder))];
          activeCalls := activeCalls[callerSid.value := CallInfo(responder)];
          activeCalls := activeCalls[sid := CallInfo(caller)];
        } else {
          emitted := emitted + [Emit(Room(callerSid.value), CallRejected(responder))];
        }
      }
    }

    /** call_ended: `peer_ended_call` naming the user goes to the peer's sid
        when the peer is bound; the sender's own `active_calls` entry is
        removed and the peer's is kept. */
    method CallEnded(sid: Sid, user: Option<string>, peer: Option<string>)
      requires Valid()
      modifies this
      ensures Valid()
      ensures connectedUsers == old(connectedUsers) && onlineUsers == old(onlineUsers)
      ensures activeCalls == old(activeCalls) - {sid}
      ensures sid !in activeCalls && forall s :: s in old(activeCalls) && s != sid ==> s in activeCalls
      ensures LookupField(connectedUsers, peer).Some? ==>
        emitted == old(emitted) + [Emit(Room(LookupField(connectedUsers, peer).value), PeerEndedCall(user))]
      ensures LookupField(connectedUsers, peer).None? ==> emitted == old(emitted)
    {
      var peerSid := LookupField(connectedUsers, peer);
      if peerSid.Some? {
        emitted := emitted + [Emit(Room(peerSid.value), PeerEndedCall(user))];
      }
      if sid in activeCalls {
        activeCalls := activeCalls - {sid};
      }
    }

    /** toggle_media: `peer_toggled_media` with the user, type and flag goes
        to the peer's sid when the peer is bound. No table changes. */
    method ToggleMedia(sid: Sid, user: Option<string>, peer: Option<string>, mediaType: Option<string>, enabled: Option<bool>)
      requires Valid()
      modifies this
      ensures Valid()
      ensures connectedUsers == old(connectedUsers) && onlineUsers == old(onlineUsers) && activeCalls == old(activeCalls)
      ensures LookupField(connectedUsers, peer).Some? ==>
        emitted == old(emitted) + [Emit(Room(LookupField(connectedUsers, peer).value), PeerToggledMedia(user, mediaType, enabled))]
      ensures LookupField(connectedUsers, peer).None? ==> emitted == old(emitted)
    {
      var peerSid := LookupField(connectedUsers, peer);
      if peerSid.Some? {
        emitted := emitted + [Emit(Room(peerSid.value), PeerToggledMedia(user, mediaType, enabled))];
      }
    }

    /** signal: the sender's `from` and `signal` fields go to the sid of `to`
        when that name is bound. No table changes. */
    method Signal(sid: Sid, to: Option<string>, from: Option<string>, signal: Option<SignalData>)
      requires Valid()
      modifies this
      ensures Valid()
      ensures connectedUsers == old(connectedUsers) && onlineUsers == old(onlineUsers) && activeCalls == old(activeCalls)
      ensures LookupField(connectedUsers, to).Some? ==>
        emitted == old(emitted) + [Emit(Room(LookupField(connectedUsers, to).value), Event.Signal(from, signal))]
      ensures LookupField(connectedUsers, to).None? ==> emitted == old(emitted)
    {
      var toSid := LookupField(connectedUsers, to);
      if toSid.Some? {
        emitted := emitted + [Emit(Room(toSid.value), Event.Signal(from, signal))];
      }
    }
  }
}
