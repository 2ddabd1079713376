/** The presence registry of the chat server: one record per login, kept in
    registration order, never removed.  This module holds the record type and
    the two pure operations the handlers apply to the list of records: the
    first-match lookup by username and the "mark offline" copy made on
    disconnect. */
module Sessions {

  datatype Option<+T> = None | Some(value: T)

  /** The opaque identifier the transport assigns to a connection (`socket.id`). */
  type ConnId = string

  /** One login: `{username, socketId, online}`. */
  datatype Session = Session(username: string, socketId: ConnId, online: bool)

  /** Whether some record carries the username `name`. */
  predicate HasUser(users: seq<Session>, name: string)
  {
    exists i :: 0 <= i < |users| && users[i].username == name
  }

  /** Whether `i` is the position of the first record named `name`. */
  predicate IsFirstMatch(users: seq<Session>, name: string, i: int)
  {
    && 0 <= i < |users|
    && users[i].username == name
    && forall j :: 0 <= j < i ==> users[j].username != name
  }

  /** Index of the first record, in registration order, whose username is
      `name`; the `online` flag plays no part. */
  function FindFirst(users: seq<Session>, name: string): (r: Option<nat>)
    ensures r.None? <==> !HasUser(users, name)
    ensures r.Some? ==> IsFirstMatch(users, name, r.value)
  {
    if users == [] then None
    else if users[0].username == name then Some(0)
    else match FindFirst(users[1..], name)
      case None => None
      case Some(i) => Some(i + 1)
  }

  /** The copy of the list made on disconnect of `conn`: every record of that
      connection goes offline, every other record is kept as it was. */
  function MarkOffline(users: seq<Session>, conn: ConnId): (r: seq<Session>)
    ensures |r| == |users|
    ensures forall i :: 0 <= i < |users| ==>
      && r[i].username == users[i].username
      && r[i].socketId == users[i].socketId
      && r[i].online == (users[i].online && users[i].socketId != conn)
  {
    if users == [] then []
    else
      var head := if users[0].socketId == conn then users[0].(online := false) else users[0];
      [head] + MarkOffline(users[1..], conn)
  }

  /** Number of records that carry the username `name`. */
  function CountNamed(users: seq<Session>, name: string): (n: nat)
    ensures n <= |users|
  {
    if users == [] then 0
    else (if users[0].username == name then 1 else 0) + CountNamed(users[1..], name)
  }

  /** The lookup depends on the usernames alone: two lists that agree on every
      record's username give the same answer. */
  lemma {:induction false} FindFirstOnlyReadsNames(u: seq<Session>, v: seq<Session>, name: string)
    requires |u| == |v|
    requires forall i :: 0 <= i < |u| ==> u[i].username == v[i].username
    ensures FindFirst(u, name) == FindFirst(v, name)
  {
    if u != [] && u[0].username != name {
      FindFirstOnlyReadsNames(u[1..], v[1..], name);
    }
  }

  /** Disconnect does not change where a username is routed: the offline
      record stays the first match, with its old connection. */
  lemma FindFirstIgnoresOffline(users: seq<Session>, conn: ConnId, name: string)
    ensures FindFirst(MarkOffline(users, conn), name) == FindFirst(users, name)
  {
    FindFirstOnlyReadsNames(MarkOffline(users, conn), users, name);
  }

  /** Appending a record never displaces an earlier match; it is found only
      when nothing before it matched. */
  lemma {:induction false} FindFirstAppend(users: seq<Session>, s: Session, name: string)
    ensures FindFirst(users + [s], name) ==
      if FindFirst(users, name).Some? then FindFirst(users, name)
      else if s.username == name then Some(|users|)
      else None
  {
    if users != [] {
      assert (users + [s])[1..] == users[1..] + [s];
      FindFirstAppend(users[1..], s, name);
    }
  }

  /** Marking a connection offline twice is the same as once. */
  lemma {:induction false} MarkOfflineIdempotent(users: seq<Session>, conn: ConnId)
    ensures MarkOffline(MarkOffline(users, conn), conn) == MarkOffline(users, conn)
  {
    if users != [] {
      var once := MarkOffline(users, conn);
      assert once[1..] == MarkOffline(users[1..], conn);
      MarkOfflineIdempotent(users[1..], conn);
    }
  }

  /** Marking offline works record by record, so it distributes over concatenation. */
  lemma {:induction false} MarkOfflineAppend(u: seq<Session>, v: seq<Session>, conn: ConnId)
    ensures MarkOffline(u + v, conn) == MarkOffline(u, conn) + MarkOffline(v, conn)
  {
    var l, r := MarkOffline(u + v, conn), MarkOffline(u, conn) + MarkOffline(v, conn);
    assert |l| == |r|;
    forall i | 0 <= i < |l| ensures l[i] == r[i] {
      if i < |u| {
        assert (u + v)[i] == u[i];
      } else {
        assert (u + v)[i] == v[i - |u|];
      }
    }
  }

  /** A disconnect whose connection owns no record leaves the list as it was. */
  lemma {:induction false} MarkOfflineNoMatch(users: seq<Session>, conn: ConnId)
    requires forall i :: 0 <= i < |users| ==> users[i].socketId != conn
    ensures MarkOffline(users, conn) == users
  {
    if users != [] {
      MarkOfflineNoMatch(users[1..], conn);
    }
  }

  /** A login under a username that is already taken adds a separate record:
      the number of records with that name grows by exactly one. */
  lemma {:induction false} CountNamedAppend(users: seq<Session>, s: Session, name: string)
    ensures CountNamed(users + [s], name) ==
      CountNamed(users, name) + (if s.username == name then 1 else 0)
  {
    if users != [] {
      assert (users + [s])[1..] == users[1..] + [s];
      CountNamedAppend(users[1..], s, name);
    }
  }

  /** A username is present exactly when it is counted at least once. */
  lemma {:induction false} CountNamedPositive(users: seq<Session>, name: string)
    ensures CountNamed(users, name) > 0 <==> HasUser(users, name)
  {
    if users != [] {
      CountNamedPositive(users[1..], name);
      if HasUser(users[1..], name) {
        var i :| 0 <= i < |users[1..]| && users[1..][i].username == name;
        assert users[i + 1].username == name;
      }
      if HasUser(users, name) && users[0].username != name {
        var i :| 0 <= i < |users| && users[i].username == name;
        assert users[1..][i - 1].username == name;
      }
    }
  }
}
