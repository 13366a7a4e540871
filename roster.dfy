/** The presence roster of static/js/app.js: the client's `onlineUsers` list,
    updated by the `user_connected` and `user_disconnected` events, and the
    view of it that the user list renders, which leaves out the client's own
    name. */
module Roster {

  predicate NoDuplicates(users: seq<string>) {
    forall i, j :: 0 <= i < j < |users| ==> users[i] != users[j]
  }

  /** `users.filter(user => user !== name)`: every occurrence of `name`
      removed, the rest kept with their multiplicities. */
  function Without(users: seq<string>, name: string): (r: seq<string>)
    ensures multiset(r) == multiset(users)[name := 0]
    ensures forall u :: u in r <==> u in users && u != name
    ensures name !in users ==> r == users
  {
    if users == [] then []
    else
      assert users == [users[0]] + users[1..];
      if users[0] == name then Without(users[1..], name)
      else [users[0]] + Without(users[1..], name)
  }

  /** The filter distributes over concatenation, so it keeps the order of the
      names it does not remove. */
  lemma {:induction false} WithoutAppend(a: seq<string>, b: seq<string>, name: string)
    ensures Without(a + b, name) == Without(a, name) + Without(b, name)
  {
    if a == [] {
      assert a + b == b;
    } else {
      assert (a + b)[1..] == a[1..] + b;
      WithoutAppend(a[1..], b, name);
    }
  }

  /** Removing a name keeps a list free of duplicates. */
  lemma {:induction false} WithoutNoDuplicates(users: seq<string>, name: string)
    requires NoDuplicates(users)
    ensures NoDuplicates(Without(users, name))
  {
    if users != [] {
      WithoutNoDuplicates(users[1..], name);
      assert users[0] !in users[1..];
    }
  }

  /** Removing two names in either order gives the same list. */
  lemma {:induction false} WithoutCommutes(users: seq<string>, a: string, b: string)
    ensures Without(Without(users, a), b) == Without(Without(users, b), a)
  {
    if users != [] {
      WithoutCommutes(users[1..], a, b);
      var rest := users[1..];
      assert users == [users[0]] + rest;
      WithoutAppend([users[0]], rest, a);
      WithoutAppend([users[0]], rest, b);
      WithoutAppend(Without([users[0]], a), Without(rest, a), b);
      WithoutAppend(Without([users[0]], b), Without(rest, b), a);
    }
  }

  /** user_connected: `if (!onlineUsers.includes(name)) onlineUsers.push(name)`. */
  function Added(users: seq<string>, name: string): (r: seq<string>)
    ensures forall u :: u in r <==> u in users || u == name
    ensures users <= r && |r| <= |users| + 1
    ensures name in users <==> r == users
    ensures NoDuplicates(users) ==> NoDuplicates(r)
  {
    if name in users then users else users + [name]
  }

  /** A user who connects and then disconnects leaves the roster as it was
      when the name was not listed before. */
  lemma AddedThenWithout(users: seq<string>, name: string)
    requires name !in users
    ensures Without(Added(users, name), name) == users
  {
    WithoutAppend(users, [name], name);
  }

  /** The rendered roster (`onlineUsers.filter(user => user !== currentUsername)`)
      never shows the client itself, shows every other listed user, and is
      kept up to date by the incremental events: after `user_disconnected`
      it is the old view without that user, and after `user_connected` of
      another user it is the old view with that user added. */
  lemma RenderedView(users: seq<string>, self: string, name: string)
    ensures self !in Without(users, self)
    ensures forall u :: u in users && u != self ==> u in Without(users, self)
    ensures Without(Without(users, name), self) == Without(Without(users, self), name)
    ensures name != self ==> Without(Added(users, name), self) == Added(Without(users, self), name)
    ensures name == self ==> Without(Added(users, name), self) == Without(users, self)
  {
    WithoutCommutes(users, name, self);
    WithoutAppend(users, [name], self);
  }
}
