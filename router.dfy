/** The event router of the chat server.  Each inbound event from a connection
    is handled to completion, may change the registry, and produces zero or
    one outbound event: a roster broadcast to every connection after login and
    disconnect, or a message / typing notice targeted at the connection of the
    first record whose username is the receiver.  `Step` and `Run` are the
    specification over values; class `Registry` holds the shared list and
    implements the four handlers against them. */
module Router {
  import opened Sessions

  /** A chat message, forwarded as it came: `{sender, receiver, text}`. */
  datatype Message = Message(sender: string, receiver: string, text: string)

  /** The inbound events.  `login` and the transport's disconnect belong to the
      connection that sent them; the routing events ignore their sender's
      connection, so they do not carry it. */
  datatype Event =
    | Login(conn: ConnId, username: string)
    | Disconnect(conn: ConnId)
    | SendMessage(data: Message)
    | Typing(sender: string, receiver: string, isTyping: bool)

  /** The outbound events: the `users` broadcast to all connections, and the
      `receiveMessage` and `typing` events sent to one connection.  The typing
      notice carries only `{sender, isTyping}`. */
  datatype Outbound =
    | Users(roster: seq<Session>)
    | ReceiveMessage(to: ConnId, data: Message)
    | TypingNotice(to: ConnId, sender: string, isTyping: bool)

  /** The registry after one event and what that event emitted. */
  datatype Reaction = Reaction(users: seq<Session>, emitted: seq<Outbound>)

  /** The connection a routed event for `receiver` goes to, if any. */
  function Route(users: seq<Session>, receiver: string): (r: Option<ConnId>)
    ensures r.None? <==> !HasUser(users, receiver)
    ensures r.Some? ==> exists i :: IsFirstMatch(users, receiver, i) && r.value == users[i].socketId
  {
    match FindFirst(users, receiver)
    case None => None
    case Some(i) => assert IsFirstMatch(users, receiver, i); Some(users[i].socketId)
  }

  /** A disconnect never changes where an event for `receiver` is routed: the
      record that goes offline keeps its place and its (now dead) connection. */
  lemma RouteIgnoresOffline(users: seq<Session>, conn: ConnId, receiver: string)
    ensures Route(MarkOffline(users, conn), receiver) == Route(users, receiver)
  {
    FindFirstIgnoresOffline(users, conn, receiver);
  }

  /** One handler run to completion. */
  function Step(users: seq<Session>, e: Event): (r: Reaction)
    ensures e.Login? || e.Disconnect? ==> r.emitted == [Users(r.users)]
    ensures e.Login? ==> |r.users| == |users| + 1 && r.users[..|users|] == users
    ensures e.Disconnect? ==> |r.users| == |users|
    ensures e.SendMessage? || e.Typing? ==> r.users == users && |r.emitted| <= 1
    ensures e.SendMessage? ==> (r.emitted == [] <==> !HasUser(users, e.data.receiver))
    ensures e.Typing? ==> (r.emitted == [] <==> !HasUser(users, e.receiver))
  {
    match e
    case Login(conn, name) =>
      var after := users + [Session(name, conn, true)];
      Reaction(after, [Users(after)])
    case Disconnect(conn) =>
      var after := MarkOffline(users, conn);
      Reaction(after, [Users(after)])
    case SendMessage(data) =>
      (match Route(users, data.receiver)
       case None => Reaction(users, [])
       case Some(c) => Reaction(users, [ReceiveMessage(c, data)]))
    case Typing(sender, receiver, isTyping) =>
      (match Route(users, receiver)
       case None => Reaction(users, [])
       case Some(c) => Reaction(users, [TypingNotice(c, sender, isTyping)]))
  }

  /** A trace of events handled one after another, from the registry `users`. */
  function Run(users: seq<Session>, events: seq<Event>): (r: Reaction)
    ensures |r.users| >= |users|
    decreases |events|
  {
    if events == [] then Reaction(users, [])
    else
      var first := Step(users, events[0]);
      var rest := Run(first.users, events[1..]);
      Reaction(rest.users, first.emitted + rest.emitted)
  }

  /** Records are never removed or reordered: across any trace every earlier
      record keeps its username and connection at its position. */
  lemma {:induction false} RunKeepsRecords(users: seq<Session>, events: seq<Event>, i: nat)
    requires i < |users|
    ensures var after := Run(users, events).users;
      i < |after| && after[i].username == users[i].username && after[i].socketId == users[i].socketId
    decreases |events|
  {
    if events != [] {
      var first := Step(users, events[0]);
      assert first.users[i].username == users[i].username && first.users[i].socketId == users[i].socketId;
      RunKeepsRecords(first.users, events[1..], i);
    }
  }

  /** A record's `online` flag only ever falls: no event brings an offline
      record back (a repeated login adds a new record instead). */
  lemma {:induction false} RunOnlineOnlyFalls(users: seq<Session>, events: seq<Event>, i: nat)
    requires i < |users|
    ensures var after := Run(users, events).users;
      i < |after| && (after[i].online ==> users[i].online)
    decreases |events|
  {
    if events != [] {
      var first := Step(users, events[0]);
      assert first.users[i].online ==> users[i].online;
      RunOnlineOnlyFalls(first.users, events[1..], i);
    }
  }

  /** An online record stays online across any trace that does not disconnect
      its connection. */
  lemma {:induction false} RunOnlineStays(users: seq<Session>, events: seq<Event>, i: nat)
    requires i < |users| && users[i].online
    requires Disconnect(users[i].socketId) !in events
    ensures var after := Run(users, events).users;
      i < |after| && after[i].online
    decreases |events|
  {
    if events != [] {
      var first := Step(users, events[0]);
      assert events[0] != Disconnect(users[i].socketId);
      assert first.users[i].online && first.users[i].socketId == users[i].socketId;
      assert Disconnect(users[i].socketId) !in events[1..] by {
        forall k | 0 <= k < |events[1..]| ensures events[1..][k] != Disconnect(users[i].socketId) {
          assert events[1..][k] == events[k + 1];
        }
      }
      RunOnlineStays(first.users, events[1..], i);
    }
  }

  /** Number of roster broadcasts among `out`. */
  function Broadcasts(out: seq<Outbound>): (n: nat)
    ensures n <= |out|
  {
    if out == [] then 0 else (if out[0].Users? then 1 else 0) + Broadcasts(out[1..])
  }

  /** Number of login and disconnect events among `events`. */
  function Lifecycle(events: seq<Event>): (n: nat)
    ensures n <= |events|
  {
    if events == [] then 0
    else (if events[0].Login? || events[0].Disconnect? then 1 else 0) + Lifecycle(events[1..])
  }

  lemma {:induction false} BroadcastsAppend(a: seq<Outbound>, b: seq<Outbound>)
    ensures Broadcasts(a + b) == Broadcasts(a) + Broadcasts(b)
  {
    if a != [] {
      assert (a + b)[0] == a[0];
      assert (a + b)[1..] == a[1..] + b;
      BroadcastsAppend(a[1..], b);
    } else {
      assert a + b == b;
    }
  }

  /** Over any trace, exactly one roster broadcast is emitted per login and per
      disconnect, whether or not the disconnect matched a record, and none for
      the routing events. */
  lemma {:induction false} OneBroadcastPerLifecycleEvent(users: seq<Session>, events: seq<Event>)
    ensures Broadcasts(Run(users, events).emitted) == Lifecycle(events)
    decreases |events|
  {
    if events != [] {
      var first := Step(users, events[0]);
      OneBroadcastPerLifecycleEvent(first.users, events[1..]);
      BroadcastsAppend(first.emitted, Run(first.users, events[1..]).emitted);
    }
  }

  /** Every username that logs in during a trace is still in the registry at
      its end: records are never removed. */
  lemma {:induction false} LoggedInStaysPresent(users: seq<Session>, events: seq<Event>, k: nat)
    requires k < |events| && events[k].Login?
    ensures HasUser(Run(users, events).users, events[k].username)
    decreases |events|
  {
    var first := Step(users, events[0]);
    var rest := Run(first.users, events[1..]);
    if k == 0 {
      assert first.users[|users|].username == events[0].username;
      RunKeepsRecords(first.users, events[1..], |users|);
      assert rest.users[|users|].username == events[0].username;
    } else {
      LoggedInStaysPresent(first.users, events[1..], k - 1);
    }
  }

  /** A trace of one event is that event's handler. */
  lemma RunOne(users: seq<Session>, e: Event)
    ensures Run(users, [e]) == Step(users, e)
  {
    assert [e][1..] == [];
  }

  /** Handling a trace in two parts is handling the whole trace: the second
      part starts from the registry the first part left behind. */
  lemma {:induction false} RunConcat(users: seq<Session>, a: seq<Event>, b: seq<Event>)
    ensures Run(users, a + b).users == Run(Run(users, a).users, b).users
    decreases |a|
  {
    if a == [] {
      assert a + b == b;
    } else {
      assert (a + b)[1..] == a[1..] + b;
      RunConcat(Step(users, a[0]).users, a[1..], b);
    }
  }

  /** Unfolding a trace whose first event is `e`. */
  lemma RunCons(users: seq<Session>, e: Event, rest: seq<Event>)
    ensures var first := Step(users, e);
      Run(users, [e] + rest) == Reaction(Run(first.users, rest).users, first.emitted + Run(first.users, rest).emitted)
  {
    assert ([e] + rest)[0] == e;
    assert ([e] + rest)[1..] == rest;
  }

  /** The outbound events of a trace in two parts are those of the first part
      followed by those of the second, in order. */
  lemma {:induction false} RunConcatEmitted(users: seq<Session>, a: seq<Event>, b: seq<Event>)
    ensures Run(users, a + b).emitted == Run(users, a).emitted + Run(Run(users, a).users, b).emitted
    decreases |a|
  {
    if a == [] {
      assert a + b == b;
    } else {
      var e, a' := a[0], a[1..];
      assert a == [e] + a';
      assert a + b == [e] + (a' + b);
      var first := Step(users, e);
      RunCons(users, e, a' + b);
      RunCons(users, e, a');
      RunConcatEmitted(first.users, a', b);
      RunConcat(first.users, a', b);
    }
  }

  /** Two logins under one name from two connections give two records, and
      routing picks the first one. */
  lemma DuplicateLoginRoutesToFirst(users: seq<Session>, c1: ConnId, c2: ConnId, name: string)
    requires !HasUser(users, name)
    ensures var twice := Run(users, [Login(c1, name), Login(c2, name)]).users;
      && twice == users + [Session(name, c1, true), Session(name, c2, true)]
      && CountNamed(twice, name) == 2
      && Route(twice, name) == Some(c1)
  {
    var one := users + [Session(name, c1, true)];
    var two := one + [Session(name, c2, true)];
    RunOne(users, Login(c1, name));
    RunOne(one, Login(c2, name));
    RunConcat(users, [Login(c1, name)], [Login(c2, name)]);
    assert [Login(c1, name)] + [Login(c2, name)] == [Login(c1, name), Login(c2, name)];
    assert two == users + [Session(name, c1, true), Session(name, c2, true)];
    CountNamedPositive(users, name);
    CountNamedAppend(users, Session(name, c1, true), name);
    CountNamedAppend(one, Session(name, c2, true), name);
    FindFirstAppend(users, Session(name, c1, true), name);
    FindFirstAppend(one, Session(name, c2, true), name);
  }

  /** After the first of two same-name logins disconnects, routing still picks
      its record, now offline, and its dead connection, although the second
      record is online. */
  lemma StaleRouteAfterDisconnect(users: seq<Session>, c1: ConnId, c2: ConnId, name: string)
    requires !HasUser(users, name) && c1 != c2
    ensures var after := Run(users, [Login(c1, name), Login(c2, name), Disconnect(c1)]).users;
      && after == MarkOffline(users, c1) + [Session(name, c1, false), Session(name, c2, true)]
      && Route(after, name) == Some(c1)
  {
    var pair := [Session(name, c1, true), Session(name, c2, true)];
    var two := users + pair;
    DuplicateLoginRoutesToFirst(users, c1, c2, name);
    RunOne(two, Disconnect(c1));
    RunConcat(users, [Login(c1, name), Login(c2, name)], [Disconnect(c1)]);
    assert [Login(c1, name), Login(c2, name)] + [Disconnect(c1)]
      == [Login(c1, name), Login(c2, name), Disconnect(c1)];
    MarkOfflineAppend(users, pair, c1);
    assert MarkOffline(pair, c1) == [Session(name, c1, false), Session(name, c2, true)];
    FindFirstIgnoresOffline(two, c1, name);
  }

  /** Two typing events for one registered receiver reach its connection in
      the order they were sent, each reduced to `{sender, isTyping}`. */
  lemma TypingArrivesInOrder(users: seq<Session>, sender: string, receiver: string)
    requires HasUser(users, receiver)
    ensures var c := Route(users, receiver).value;
      Run(users, [Typing(sender, receiver, true), Typing(sender, receiver, false)])
        == Reaction(users, [TypingNotice(c, sender, true), TypingNotice(c, sender, false)])
  {
    var evs := [Typing(sender, receiver, true), Typing(sender, receiver, false)];
    var c := Route(users, receiver).value;
    assert evs[1..] == [Typing(sender, receiver, false)];
    assert evs[1..][1..] == [];
    assert Run(users, evs[1..]) == Reaction(users, [TypingNotice(c, sender, false)]);
  }

  /** The shared registry (`let users = []`) with one method per handler. */
  class Registry {
    var users: seq<Session>

    constructor ()
      ensures users == []
    {
      users := [];
    }

    /** `login`: append a new online record, then broadcast the whole list. */
    method Login(username: string, conn: ConnId) returns (out: Outbound)
      modifies this
      ensures users == old(users) + [Session(username, conn, true)]
      ensures out == Users(users)
    {
      users := users + [Session(username, conn, true)];
      out := Users(users);
    }

    /** `disconnect`: every record of the connection goes offline, then the
        whole list is broadcast. */
    method Disconnect(conn: ConnId) returns (out: Outbound)
      modifies this
      ensures users == MarkOffline(old(users), conn)
      ensures out == Users(users)
    {
      users := MarkOffline(users, conn);
      out := Users(users);
    }

    /** `sendMessage`: forward the message unchanged to the connection of the
        first record named by its receiver, online or not; drop it silently
        when no record has that name. */
    method SendMessage(data: Message) returns (out: Option<Outbound>)
      ensures out.None? <==> !HasUser(users, data.receiver)
      ensures out.Some? ==> exists i ::
        IsFirstMatch(users, data.receiver, i) && out.value == ReceiveMessage(users[i].socketId, data)
    {
      var found := FindFirst(users, data.receiver);
      if found.Some? {
        assert IsFirstMatch(users, data.receiver, found.value);
        out := Some(ReceiveMessage(users[found.value].socketId, data));
      } else {
        out := None;
      }
    }

    /** `typing`: send `{sender, isTyping}` to the connection of the first
        record named `receiver`; nothing when no record has that name. */
    method Typing(sender: string, receiver: string, isTyping: bool) returns (out: Option<Outbound>)
      ensures out.None? <==> !HasUser(users, receiver)
      ensures out.Some? ==> exists i ::
        IsFirstMatch(users, receiver, i) && out.value == TypingNotice(users[i].socketId, sender, isTyping)
    {
      var found := FindFirst(users, receiver);
      if found.Some? {
        assert IsFirstMatch(users, receiver, found.value);
        out := Some(TypingNotice(users[found.value].socketId, sender, isTyping));
      } else {
        out := None;
      }
    }

    /** Dispatch one inbound event to its handler. */
    method Handle(e: Event) returns (emitted: seq<Outbound>)
      modifies this
      ensures Step(old(users), e) == Reaction(users, emitted)
    {
      match e
      case Login(conn, name) =>
        var out := Login(name, conn);
        emitted := [out];
      case Disconnect(conn) =>
        var out := Disconnect(conn);
        emitted := [out];
      case SendMessage(data) =>
        var out := SendMessage(data);
        emitted := if out.Some? then [out.value] else [];
      case Typing(sender, receiver, isTyping) =>
        var out := Typing(sender, receiver, isTyping);
        emitted := if out.Some? then [out.value] else [];
    }
  }
}
