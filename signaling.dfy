/**
 The signaling relay of the backend: a table from room identifiers to the
 connection identifiers that joined them, the socket.io room membership that
 decides who receives a room broadcast, and the handlers `join`, `offer`,
 `answer`, `ice-candidate` and `disconnect`. Every emit is recorded in an
 outbox together with the set of connections it reaches at the moment it
 is made.
 */
module Signaling {
  import opened Optional

  type ConnId = string
  type RoomId = string
  /** An SDP description or ICE candidate, forwarded without being looked at. */
  type Blob = string

  const FullRoomMessage: string := "Session not found or already full."

  datatype SignalKind = OfferSignal | AnswerSignal | IceCandidateSignal

  /** Events the relay sends to clients. */
  datatype Event =
    | UserJoined(peerId: ConnId)
    | SessionError(message: string)
    | Signal(kind: SignalKind, from: ConnId, payload: Blob)
    | UserLeft(id: ConnId)

  /** One emit and the connections it reaches. */
  datatype Delivery = Delivery(recipients: set<ConnId>, event: Event)

  /** Events clients send to the relay. */
  datatype Inbound =
    | JoinMsg(roomId: RoomId)
    | SignalMsg(kind: SignalKind, roomId: RoomId, payload: Blob, to: Option<ConnId>)
    | MediaStateMsg(roomId: RoomId, videoPaused: bool, muted: bool)

  /** JavaScript truthiness of the optional `to` field: absent and "" are falsy. */
  predicate Truthy(to: Option<ConnId>)
  {
    to.Some? && to.value != ""
  }

  predicate Distinct<T(==)>(s: seq<T>)
  {
    forall i, j :: 0 <= i < j < |s| ==> s[i] != s[j]
  }

  function Elems<T>(s: seq<T>): set<T>
  {
    set x | x in s
  }

  /** `s.filter(y => y !== x)`: every occurrence of `x` dropped, the rest kept in order. */
  function Without<T(==,!new)>(s: seq<T>, x: T): (r: seq<T>)
    ensures |r| <= |s|
    ensures forall y :: y in r <==> y in s && y != x
    ensures x !in s ==> r == s
  {
    if s == [] then []
    else if s[0] == x then
      assert s == [s[0]] + s[1..];
      Without(s[1..], x)
    else
      assert s == [s[0]] + s[1..];
      [s[0]] + Without(s[1..], x)
  }

  /** The connections socket.io has put into `room`. */
  function Members(joined: set<(RoomId, ConnId)>, room: RoomId): set<ConnId>
  {
    set p | p in joined && p.0 == room :: p.1
  }

  /** The membership once connection `x` has left every socket.io room. */
  function Leave(joined: set<(RoomId, ConnId)>, x: ConnId): set<(RoomId, ConnId)>
  {
    set p | p in joined && p.1 != x
  }

  /** The coordinator's invariant: every listed room has one or two entries,
      the key order lists each room once, and a connection is in a socket.io
      room exactly when it is in that room's list. */
  ghost predicate ValidState(rooms: map<RoomId, seq<ConnId>>, order: seq<RoomId>,
                             joined: set<(RoomId, ConnId)>, connected: set<ConnId>)
  {
    && (forall r :: r in rooms ==> 1 <= |rooms[r]| <= 2)
    && Distinct(order)
    && (forall r :: r in order <==> r in rooms)
    && (forall p :: p in joined ==> p.0 in rooms && p.1 in rooms[p.0] && p.1 in connected)
    && (forall r, c :: r in rooms && c in rooms[r] ==> (r, c) in joined)
  }

  /** Under the invariant a socket.io room holds exactly the ids in the room's
      list, and a room that is not in the table has no members. */
  lemma MembersMatchTable(rooms: map<RoomId, seq<ConnId>>, order: seq<RoomId>,
                          joined: set<(RoomId, ConnId)>, connected: set<ConnId>, r: RoomId)
    requires ValidState(rooms, order, joined, connected)
    ensures Members(joined, r) == if r in rooms then Elems(rooms[r]) else {}
  {
    if r in rooms {
      assert forall c :: c in Members(joined, r) <==> c in rooms[r];
    } else {
      assert forall c :: (r, c) !in joined;
    }
  }

  /** Creating a room for a live connection keeps the invariant. */
  lemma CreateKeepsValid(rooms: map<RoomId, seq<ConnId>>, order: seq<RoomId>,
                         joined: set<(RoomId, ConnId)>, connected: set<ConnId>, j: ConnId, r: RoomId)
    requires ValidState(rooms, order, joined, connected) && j in connected && r !in rooms
    ensures ValidState(rooms[r := [j]], order + [r], joined + {(r, j)}, connected)
  {
    assert r !in order;
  }

  /** Adding a live connection to a room with one entry keeps the invariant. */
  lemma AppendKeepsValid(rooms: map<RoomId, seq<ConnId>>, order: seq<RoomId>,
                         joined: set<(RoomId, ConnId)>, connected: set<ConnId>, j: ConnId, r: RoomId)
    requires ValidState(rooms, order, joined, connected) && j in connected && r in rooms && |rooms[r]| == 1
    ensures ValidState(rooms[r := rooms[r] + [j]], order, joined + {(r, j)}, connected)
  {
    var rooms' := rooms[r := rooms[r] + [j]];
    forall p | p in joined + {(r, j)}
      ensures p.0 in rooms' && p.1 in rooms'[p.0]
    {
      if p.0 == r {
        assert p.1 in rooms[r] || p.1 == j;
      }
    }
    forall q, c | q in rooms' && c in rooms'[q]
      ensures (q, c) in joined + {(r, j)}
    {
      if q == r {
        assert c in rooms[r] || c == j;
      }
    }
  }

  /** The table after `disconnect`: `x` filtered out of every list and the
      lists that became empty deleted. */
  function Prune(rooms: map<RoomId, seq<ConnId>>, x: ConnId): map<RoomId, seq<ConnId>>
  {
    map r | r in rooms && Without(rooms[r], x) != [] :: Without(rooms[r], x)
  }

  /** One pass of the disconnect loop over room `r`: filter, then delete if empty. */
  function PruneStep(m: map<RoomId, seq<ConnId>>, r: RoomId, x: ConnId): map<RoomId, seq<ConnId>>
  {
    if r !in m then m
    else
      var m' := m[r := Without(m[r], x)];
      if |m'[r]| == 0 then m' - {r} else m'
  }

  /** The table after the disconnect loop has visited the keys `ks` in order. */
  function PruneKeys(m: map<RoomId, seq<ConnId>>, ks: seq<RoomId>, x: ConnId): map<RoomId, seq<ConnId>>
  {
    if ks == [] then m
    else PruneStep(PruneKeys(m, ks[..|ks| - 1], x), ks[|ks| - 1], x)
  }

  /** Visiting distinct keys filters exactly the visited lists and deletes
      exactly the visited lists that became empty. */
  lemma {:induction false} PruneKeysAt(m: map<RoomId, seq<ConnId>>, ks: seq<RoomId>, x: ConnId, r: RoomId)
    requires Distinct(ks)
    ensures r in PruneKeys(m, ks, x) <==> r in m && (r in ks ==> Without(m[r], x) != [])
    ensures r in PruneKeys(m, ks, x) ==>
              PruneKeys(m, ks, x)[r] == if r in ks then Without(m[r], x) else m[r]
  {
    if ks != [] {
      var front, last := ks[..|ks| - 1], ks[|ks| - 1];
      assert ks == front + [last];
      assert last !in front;
      PruneKeysAt(m, front, x, r);
      PruneKeysAt(m, front, x, last);
    }
  }

  /** Visiting every key once gives `Prune`. */
  lemma PruneKeysAll(m: map<RoomId, seq<ConnId>>, ks: seq<RoomId>, x: ConnId)
    requires Distinct(ks) && forall r :: r in ks <==> r in m
    ensures PruneKeys(m, ks, x) == Prune(m, x)
  {
    forall r
      ensures (r in PruneKeys(m, ks, x) <==> r in Prune(m, x))
      ensures r in Prune(m, x) ==> PruneKeys(m, ks, x)[r] == Prune(m, x)[r]
    {
      PruneKeysAt(m, ks, x, r);
    }
  }

  /** The keys among `ks`, in order, whose lists survive the removal of `x`. */
  function Survivors(rooms: map<RoomId, seq<ConnId>>, ks: seq<RoomId>, x: ConnId): seq<RoomId>
  {
    if ks == [] then []
    else
      var last := ks[|ks| - 1];
      var front := Survivors(rooms, ks[..|ks| - 1], x);
      if last in rooms && Without(rooms[last], x) != [] then front + [last] else front
  }

  /** The surviving keys are the visited keys whose lists stay non-empty,
      each listed once. */
  lemma {:induction false} SurvivorsSpec(rooms: map<RoomId, seq<ConnId>>, ks: seq<RoomId>, x: ConnId)
    ensures forall r :: r in Survivors(rooms, ks, x) <==> r in ks && r in rooms && Without(rooms[r], x) != []
    ensures Distinct(ks) ==> Distinct(Survivors(rooms, ks, x))
  {
    if ks != [] {
      var front, last := ks[..|ks| - 1], ks[|ks| - 1];
      SurvivorsSpec(rooms, front, x);
      assert forall r :: r in ks <==> r in front || r == last;
      assert Distinct(ks) ==> last !in front;
    }
  }

  /** The `user-left` emit the disconnect loop makes for room `r`. */
  function Notice(joined: set<(RoomId, ConnId)>, r: RoomId, x: ConnId): Delivery
  {
    Delivery(Members(joined, r) - {x}, UserLeft(x))
  }

  /** The outbox `out` followed by the `user-left` emits for the rooms `ks`, in order. */
  function Notices(out: seq<Delivery>, joined: set<(RoomId, ConnId)>, ks: seq<RoomId>, x: ConnId): seq<Delivery>
  {
    if ks == [] then out
    else Notices(out, joined, ks[..|ks| - 1], x) + [Notice(joined, ks[|ks| - 1], x)]
  }

  /** Earlier emits stay in place, and the `k`-th new emit belongs to the
      `k`-th room. */
  lemma {:induction false} NoticesAt(out: seq<Delivery>, joined: set<(RoomId, ConnId)>, ks: seq<RoomId>, x: ConnId)
    ensures |Notices(out, joined, ks, x)| == |out| + |ks|
    ensures Notices(out, joined, ks, x)[..|out|] == out
    ensures forall k :: 0 <= k < |ks| ==> Notices(out, joined, ks, x)[|out| + k] == Notice(joined, ks[k], x)
  {
    if ks != [] {
      var front := ks[..|ks| - 1];
      NoticesAt(out, joined, front, x);
      assert forall k :: 0 <= k < |front| ==> front[k] == ks[k];
    }
  }

  /** The rooms among `ks`, in order, that a disconnect of `x` notifies:
      all of them when `everyRoom` holds, otherwise those whose list holds `x`. */
  function Notified(rooms: map<RoomId, seq<ConnId>>, ks: seq<RoomId>, x: ConnId, everyRoom: bool): seq<RoomId>
  {
    if ks == [] then []
    else
      var last := ks[|ks| - 1];
      var front := Notified(rooms, ks[..|ks| - 1], x, everyRoom);
      if everyRoom || (last in rooms && x in rooms[last]) then front + [last] else front
  }

  /** Notifying every room notifies the visited keys themselves. */
  lemma {:induction false} NotifiedEvery(rooms: map<RoomId, seq<ConnId>>, ks: seq<RoomId>, x: ConnId)
    ensures Notified(rooms, ks, x, true) == ks
  {
    if ks != [] {
      NotifiedEvery(rooms, ks[..|ks| - 1], x);
      assert ks == ks[..|ks| - 1] + [ks[|ks| - 1]];
    }
  }

  /** Otherwise the notified rooms are exactly the visited rooms whose list holds `x`. */
  lemma {:induction false} NotifiedOwn(rooms: map<RoomId, seq<ConnId>>, ks: seq<RoomId>, x: ConnId)
    ensures forall r :: r in Notified(rooms, ks, x, false) <==> r in ks && r in rooms && x in rooms[r]
  {
    if ks != [] {
      NotifiedOwn(rooms, ks[..|ks| - 1], x);
      assert forall r :: r in ks <==> r in ks[..|ks| - 1] || r == ks[|ks| - 1];
    }
  }

  /** Disconnect keeps the coordinator's invariant. */
  lemma DisconnectKeepsValid(rooms: map<RoomId, seq<ConnId>>, order: seq<RoomId>,
                             joined: set<(RoomId, ConnId)>, connected: set<ConnId>, x: ConnId)
    requires ValidState(rooms, order, joined, connected)
    ensures ValidState(Prune(rooms, x), Survivors(rooms, order, x), Leave(joined, x), connected - {x})
  {
    var rooms', joined' := Prune(rooms, x), Leave(joined, x);
    SurvivorsSpec(rooms, order, x);
    forall p | p in joined'
      ensures p.0 in rooms' && p.1 in rooms'[p.0]
    {
      assert p.1 in Without(rooms[p.0], x);
    }
    forall r, c | r in rooms' && c in rooms'[r]
      ensures (r, c) in joined'
    {
      assert c in rooms[r];
    }
  }

  /** What `disconnect` does to the table: no list mentions the leaver any
      more, exactly the lists that became empty are gone, and every other id
      keeps its multiplicity. */
  lemma DisconnectRemovesLeaver(rooms: map<RoomId, seq<ConnId>>, x: ConnId)
    requires forall r :: r in rooms ==> rooms[r] != []
    ensures forall r :: r in Prune(rooms, x) ==> x !in Prune(rooms, x)[r]
    ensures forall r :: r in rooms && r !in Prune(rooms, x) ==> forall c :: c in rooms[r] ==> c == x
    ensures forall r, c :: r in Prune(rooms, x) && c != x ==>
              multiset(Prune(rooms, x)[r])[c] == multiset(rooms[r])[c]
    ensures forall r :: r in rooms && x !in rooms[r] ==> r in Prune(rooms, x) && Prune(rooms, x)[r] == rooms[r]
  {
    forall r | r in rooms && x !in rooms[r]
      ensures r in Prune(rooms, x)
    {
      assert rooms[r][0] in rooms[r];
    }
    forall r | r in Prune(rooms, x)
      ensures forall c :: c != x ==> multiset(Prune(rooms, x)[r])[c] == multiset(rooms[r])[c]
    {
      WithoutMultiset(rooms[r], x);
    }
  }

  /** The `user-left` emits for the rooms `ks` after `x` left: each carries
      the bare id of the leaver and reaches the room's remaining occupants. */
  lemma NoticesReachRemaining(rooms: map<RoomId, seq<ConnId>>, order: seq<RoomId>,
                              joined: set<(RoomId, ConnId)>, connected: set<ConnId>,
                              out: seq<Delivery>, ks: seq<RoomId>, x: ConnId)
    requires ValidState(rooms, order, joined, connected)
    requires forall r :: r in ks ==> r in rooms
    ensures |Notices(out, Leave(joined, x), ks, x)| == |out| + |ks|
    ensures Notices(out, Leave(joined, x), ks, x)[..|out|] == out
    ensures forall k :: 0 <= k < |ks| ==>
              Notices(out, Leave(joined, x), ks, x)[|out| + k] ==
                Delivery(Elems(Without(rooms[ks[k]], x)), UserLeft(x))
  {
    NoticesAt(out, Leave(joined, x), ks, x);
    DisconnectKeepsValid(rooms, order, joined, connected, x);
    forall k | 0 <= k < |ks|
      ensures Notice(Leave(joined, x), ks[k], x) == Delivery(Elems(Without(rooms[ks[k]], x)), UserLeft(x))
    {
      var r := ks[k];
      MembersMatchTable(Prune(rooms, x), Survivors(rooms, order, x), Leave(joined, x), connected - {x}, r);
      if r !in Prune(rooms, x) {
        assert Elems(Without(rooms[r], x)) == {};
      }
    }
  }

  /** The `user-left` emits of one disconnect as written: one per room in the
      table, in key order, whether or not the leaver was in it, each reaching
      the room's remaining occupants. */
  lemma DisconnectNotifiesEveryRoom(rooms: map<RoomId, seq<ConnId>>, order: seq<RoomId>,
                                    joined: set<(RoomId, ConnId)>, connected: set<ConnId>,
                                    out: seq<Delivery>, x: ConnId)
    requires ValidState(rooms, order, joined, connected)
    ensures |order| == |rooms| && |Notices(out, Leave(joined, x), order, x)| == |out| + |order|
    ensures Notices(out, Leave(joined, x), order, x)[..|out|] == out
    ensures forall k :: 0 <= k < |order| ==>
              Notices(out, Leave(joined, x), order, x)[|out| + k] ==
                Delivery(Elems(Without(rooms[order[k]], x)), UserLeft(x))
  {
    DistinctCard(order, rooms);
    NoticesReachRemaining(rooms, order, joined, connected, out, order, x);
  }

  /** As written, a disconnect tells the occupants of a room the leaver was
      never in that it left: with `a` and `b` in `r1` and `c` alone in `r2`,
      `c`'s disconnect sends `a` a `user-left` for `c`. */
  lemma StrayUserLeft(a: ConnId, b: ConnId, c: ConnId, r1: RoomId, r2: RoomId)
    requires a != b && a != c && b != c && r1 != r2
    ensures var rooms, order := map[r1 := [a, b], r2 := [c]], [r1, r2];
            var joined := {(r1, a), (r1, b), (r2, c)};
            && ValidState(rooms, order, joined, {a, b, c})
            && c !in rooms[r1]
            && Inbox(Notices([], Leave(joined, c), order, c), a) == [UserLeft(c)]
  {
    var rooms, order := map[r1 := [a, b], r2 := [c]], [r1, r2];
    var joined := {(r1, a), (r1, b), (r2, c)};
    assert ValidState(rooms, order, joined, {a, b, c});
    assert Without([a, b], c) == [a, b] by {
      assert [a, b][1..] == [b];
      assert [b][1..] == [];
    }
    assert Without([c], c) == [] by {
      assert [c][1..] == [];
    }
    DisconnectNotifiesEveryRoom(rooms, order, joined, {a, b, c}, [], c);
    var n := Notices([], Leave(joined, c), order, c);
    var d1, d2 := Delivery({a, b}, UserLeft(c)), Delivery({}, UserLeft(c));
    assert n[0] == d1 by {
      assert Elems([a, b]) == {a, b};
    }
    assert n[1] == d2 by {
      assert Elems<ConnId>([]) == {};
    }
    assert n == [d1] + [d2];
    InboxAppend([d1], [d2], a);
  }

  /** Corrected: when only the rooms holding the leaver are notified, a
      connection that shared no room with the leaver receives nothing, and
      every notice reaches the other occupants of one of the leaver's rooms. */
  lemma OwnRoomsNotified(rooms: map<RoomId, seq<ConnId>>, order: seq<RoomId>,
                         joined: set<(RoomId, ConnId)>, connected: set<ConnId>,
                         out: seq<Delivery>, x: ConnId, c: ConnId)
    requires ValidState(rooms, order, joined, connected)
    ensures var ks := Notified(rooms, order, x, false);
            var n := Notices(out, Leave(joined, x), ks, x);
            && (forall r :: r in ks <==> r in rooms && x in rooms[r])
            && |n| == |out| + |ks| && n[..|out|] == out
            && (forall k :: 0 <= k < |ks| ==> n[|out| + k] == Delivery(Elems(Without(rooms[ks[k]], x)), UserLeft(x)))
            && ((forall r :: r in rooms && x in rooms[r] ==> c !in rooms[r]) ==> Inbox(n[|out|..], c) == [])
  {
    var ks := Notified(rooms, order, x, false);
    NotifiedOwn(rooms, order, x);
    NoticesReachRemaining(rooms, order, joined, connected, out, ks, x);
    var n := Notices(out, Leave(joined, x), ks, x);
    if forall r :: r in rooms && x in rooms[r] ==> c !in rooms[r] {
      forall k | 0 <= k < |n[|out|..]|
        ensures c !in n[|out|..][k].recipients
      {
        var r := ks[k];
        assert r in ks && r in rooms && x in rooms[r];
        assert c !in rooms[r];
        assert n[|out|..][k] == n[|out| + k] == Delivery(Elems(Without(rooms[r], x)), UserLeft(x));
      }
      InboxNone(n[|out|..], c);
    }
  }

  /** A list of distinct keys covering a map's domain is as long as the map. */
  lemma {:induction false} DistinctCard(ks: seq<RoomId>, m: map<RoomId, seq<ConnId>>)
    requires Distinct(ks)
    requires forall r :: r in ks <==> r in m
    ensures |ks| == |m|
  {
    if ks == [] {
      assert m.Keys == {};
    } else {
      var last := ks[|ks| - 1];
      var front := ks[..|ks| - 1];
      assert forall r :: r in ks <==> r in front || r == last;
      assert last !in front;
      DistinctCard(front, m - {last});
    }
  }

  /** The events addressed to connection `c`, in emit order. */
  function Inbox(outbox: seq<Delivery>, c: ConnId): seq<Event>
  {
    if outbox == [] then []
    else (if c in outbox[0].recipients then [outbox[0].event] else []) + Inbox(outbox[1..], c)
  }

  /** The inbox of a concatenation is the concatenation of the inboxes. */
  lemma {:induction false} InboxAppend(o: seq<Delivery>, p: seq<Delivery>, c: ConnId)
    ensures Inbox(o + p, c) == Inbox(o, c) + Inbox(p, c)
  {
    if o != [] {
      assert (o + p)[0] == o[0];
      assert (o + p)[1..] == o[1..] + p;
      InboxAppend(o[1..], p, c);
    } else {
      assert o + p == p;
    }
  }

  /** A connection that no delivery reaches has an empty inbox. */
  lemma {:induction false} InboxNone(o: seq<Delivery>, c: ConnId)
    requires forall k :: 0 <= k < |o| ==> c !in o[k].recipients
    ensures Inbox(o, c) == []
  {
    if o != [] {
      assert forall k :: 0 <= k < |o[1..]| ==> o[1..][k] == o[k + 1];
      InboxNone(o[1..], c);
    }
  }

  class Coordinator {
    /** `rooms`: room id to the ids that joined it, in arrival order. */
    var rooms: map<RoomId, seq<ConnId>>
    /** The key order of the `rooms` object, which `for..in` follows. */
    var order: seq<RoomId>
    /** socket.io room membership, as (room, connection) pairs. */
    var joined: set<(RoomId, ConnId)>
    /** Live connections; an emit addressed to any other id reaches no one. */
    var connected: set<ConnId>
    /** Every emit so far. */
    var outbox: seq<Delivery>

    ghost predicate Valid()
      reads this
    {
      ValidState(rooms, order, joined, connected)
    }

    constructor ()
      ensures Valid()
      ensures rooms == map[] && order == [] && joined == {} && connected == {} && outbox == []
    {
      rooms, order, joined, connected, outbox := map[], [], {}, {}, [];
    }

    /** A client connects and is given the id `id`. */
    method Connect(id: ConnId)
      requires Valid()
      modifies this`connected
      ensures Valid()
      ensures connected == old(connected) + {id}
    {
      connected := connected + {id};
    }

    /** The `join` handler. */
    method Join(joiner: ConnId, roomId: RoomId)
      requires Valid() && joiner in connected
      modifies this
      ensures Valid() && connected == old(connected)
      ensures old(roomId !in rooms) ==>
                && rooms == old(rooms)[roomId := [joiner]]
                && order == old(order) + [roomId]
                && joined == old(joined) + {(roomId, joiner)}
                && outbox == old(outbox)
      ensures old(roomId in rooms && |rooms[roomId]| == 1) ==>
                && rooms == old(rooms)[roomId := old(rooms[roomId]) + [joiner]]
                && |rooms[roomId]| == 2
                && order == old(order)
                && joined == old(joined) + {(roomId, joiner)}
                && outbox == old(outbox) + [Delivery({old(rooms[roomId][0])} - {joiner}, UserJoined(joiner))]
      ensures old(roomId in rooms && |rooms[roomId]| != 1) ==>
                && rooms == old(rooms) && order == old(order) && joined == old(joined)
                && outbox == old(outbox) + [Delivery({joiner}, SessionError(FullRoomMessage))]
    {
      if roomId !in rooms {
        CreateKeepsValid(rooms, order, joined, connected, joiner, roomId);
        rooms := rooms[roomId := [joiner]];
        order := order + [roomId];
        joined := joined + {(roomId, joiner)};
        return;
      }
      if |rooms[roomId]| == 1 {
        ghost var occupant := rooms[roomId][0];
        MembersMatchTable(rooms, order, joined, connected, roomId);
        assert Elems(rooms[roomId]) == {occupant};
        AppendKeepsValid(rooms, order, joined, connected, joiner, roomId);
        rooms := rooms[roomId := rooms[roomId] + [joiner]];
        joined := joined + {(roomId, joiner)};
        assert Members(joined, roomId) - {joiner} == {occupant} - {joiner};
        outbox := outbox + [Delivery(Members(joined, roomId) - {joiner}, UserJoined(joiner))];
        return;
      }
      outbox := outbox + [Delivery({joiner}, SessionError(FullRoomMessage))];
    }

    /** The `offer`, `answer` and `ice-candidate` handlers: forward the
        payload, tagged with the sender, to `to` when it is truthy and to the
        rest of the room otherwise. */
    method Relay(sender: ConnId, kind: SignalKind, roomId: RoomId, payload: Blob, to: Option<ConnId>)
      requires Valid()
      modifies this`outbox
      ensures |outbox| == |old(outbox)| + 1 && outbox[..|old(outbox)|] == old(outbox)
      ensures outbox[|old(outbox)|].event == Signal(kind, sender, payload)
      ensures sender !in outbox[|old(outbox)|].recipients
      ensures Truthy(to) ==> outbox[|old(outbox)|].recipients == ({to.value} * connected) - {sender}
      ensures !Truthy(to) ==>
                outbox[|old(outbox)|].recipients ==
                  (if roomId in rooms then Elems(rooms[roomId]) else {}) - {sender}
    {
      MembersMatchTable(rooms, order, joined, connected, roomId);
      var recipients;
      if Truthy(to) {
        recipients := ({to.value} * connected) - {sender};
      } else {
        recipients := Members(joined, roomId) - {sender};
      }
      outbox := outbox + [Delivery(recipients, Signal(kind, sender, payload))];
    }

    /** The `disconnect` handler. socket.io has already taken the socket out
        of all its rooms when the handler runs; the handler then visits every
        key of the table and tells each room the socket left. */
    method Disconnect(leaver: ConnId)
      requires Valid()
      modifies this
      ensures Valid()
      ensures connected == old(connected) - {leaver}
      ensures joined == Leave(old(joined), leaver)
      ensures rooms == Prune(old(rooms), leaver)
      ensures order == Survivors(old(rooms), old(order), leaver)
      ensures outbox == Notices(old(outbox), joined, old(order), leaver)
    {
      ghost var rooms0, joined0, connected0 := rooms, joined, connected;
      connected := connected - {leaver};
      joined := Leave(joined, leaver);
      VisitRooms(leaver, true);
      NotifiedEvery(rooms0, old(order), leaver);
      PruneKeysAll(rooms0, old(order), leaver);
      DisconnectKeepsValid(rooms0, old(order), joined0, connected0, leaver);
    }

    /** The `disconnect` handler with its evident intent: the same loop, but
        only the rooms whose list held the leaver are told. */
    method DisconnectOwnRooms(leaver: ConnId)
      requires Valid()
      modifies this
      ensures Valid()
      ensures connected == old(connected) - {leaver}
      ensures joined == Leave(old(joined), leaver)
      ensures rooms == Prune(old(rooms), leaver)
      ensures order == Survivors(old(rooms), old(order), leaver)
      ensures outbox == Notices(old(outbox), joined, Notified(old(rooms), old(order), leaver, false), leaver)
    {
      ghost var rooms0, joined0, connected0 := rooms, joined, connected;
      connected := connected - {leaver};
      joined := Leave(joined, leaver);
      VisitRooms(leaver, false);
      PruneKeysAll(rooms0, old(order), leaver);
      DisconnectKeepsValid(rooms0, old(order), joined0, connected0, leaver);
    }

    /** The `for..in` loop of the `disconnect` handler over the keys of the
        table; `everyRoom` says whether rooms without the leaver are told too. */
    method VisitRooms(leaver: ConnId, everyRoom: bool)
      requires Distinct(order) && forall r :: r in order ==> r in rooms
      modifies this`rooms, this`order, this`outbox
      ensures rooms == PruneKeys(old(rooms), old(order), leaver)
      ensures order == Survivors(old(rooms), old(order), leaver)
      ensures outbox == Notices(old(outbox), joined, Notified(old(rooms), old(order), leaver, everyRoom), leaver)
    {
      ghost var rooms0, out0 := rooms, outbox;
      var keys := order;
      var i := 0;
      while i < |keys|
        invariant 0 <= i <= |keys|
        invariant rooms == PruneKeys(rooms0, keys[..i], leaver)
        invariant order == Survivors(rooms0, keys[..i], leaver) + keys[i..]
        invariant outbox == Notices(out0, joined, Notified(rooms0, keys[..i], leaver, everyRoom), leaver)
      {
        VisitKey(keys, i, leaver, everyRoom, rooms0, out0);
        i := i + 1;
      }
      assert keys[..i] == keys;
    }

    /** The body of the `for..in` loop for its `i`-th key. */
    method VisitKey(keys: seq<RoomId>, i: nat, leaver: ConnId, everyRoom: bool,
                    ghost rooms0: map<RoomId, seq<ConnId>>, ghost out0: seq<Delivery>)
      requires Distinct(keys) && i < |keys| && forall r :: r in keys ==> r in rooms0
      requires rooms == PruneKeys(rooms0, keys[..i], leaver)
      requires order == Survivors(rooms0, keys[..i], leaver) + keys[i..]
      requires outbox == Notices(out0, joined, Notified(rooms0, keys[..i], leaver, everyRoom), leaver)
      modifies this`rooms, this`order, this`outbox
      ensures rooms == PruneKeys(rooms0, keys[..i + 1], leaver)
      ensures order == Survivors(rooms0, keys[..i + 1], leaver) + keys[i + 1..]
      ensures outbox == Notices(out0, joined, Notified(rooms0, keys[..i + 1], leaver, everyRoom), leaver)
    {
      VisitStep(rooms0, keys, i, leaver, out0, joined, everyRoom);
      DisconnectFrom(keys[i], leaver, everyRoom);
    }

    /** One pass of the `disconnect` loop: filter the leaver out of the list
        of `r`, tell the rest of socket.io room `r` (always, or only when the
        list held the leaver), and delete `r` if its list became empty. */
    method DisconnectFrom(r: RoomId, leaver: ConnId, everyRoom: bool)
      requires r in rooms
      modifies this`rooms, this`order, this`outbox
      ensures rooms == PruneStep(old(rooms), r, leaver)
      ensures order == if Without(old(rooms)[r], leaver) == [] then Without(old(order), r) else old(order)
      ensures outbox == old(outbox) + if everyRoom || leaver in old(rooms)[r] then [Notice(joined, r, leaver)] else []
    {
      var tell := everyRoom || leaver in rooms[r];
      rooms := rooms[r := Without(rooms[r], leaver)];
      if tell {
        outbox := outbox + [Delivery(Members(joined, r) - {leaver}, UserLeft(leaver))];
      }
      if |rooms[r]| == 0 {
        rooms := rooms - {r};
        order := Without(order, r);
      }
    }

    /** What socket.io does with an inbound event: run the handler registered
        for it. No handler is registered for `media-state`. */
    method Dispatch(sender: ConnId, msg: Inbound)
      requires Valid() && sender in connected
      modifies this
      ensures Valid() && connected == old(connected)
      ensures !msg.JoinMsg? ==> rooms == old(rooms) && order == old(order) && joined == old(joined)
      ensures msg.MediaStateMsg? ==> outbox == old(outbox)
      ensures msg.SignalMsg? ==> |outbox| == |old(outbox)| + 1 && sender !in outbox[|old(outbox)|].recipients
      ensures msg.JoinMsg? && old(msg.roomId !in rooms) ==>
                && rooms == old(rooms)[msg.roomId := [sender]]
                && order == old(order) + [msg.roomId]
                && joined == old(joined) + {(msg.roomId, sender)}
                && outbox == old(outbox)
      ensures msg.JoinMsg? && old(msg.roomId in rooms && |rooms[msg.roomId]| == 1) ==>
                && rooms == old(rooms)[msg.roomId := old(rooms[msg.roomId]) + [sender]]
                && order == old(order)
                && joined == old(joined) + {(msg.roomId, sender)}
                && outbox == old(outbox) + [Delivery({old(rooms[msg.roomId][0])} - {sender}, UserJoined(sender))]
      ensures msg.JoinMsg? && old(msg.roomId in rooms && |rooms[msg.roomId]| != 1) ==>
                && rooms == old(rooms) && order == old(order) && joined == old(joined)
                && outbox == old(outbox) + [Delivery({sender}, SessionError(FullRoomMessage))]
      ensures msg.SignalMsg? ==>
                outbox == old(outbox) + [Delivery(
                  (if Truthy(msg.to) then {msg.to.value} * connected
                   else if msg.roomId in rooms then Elems(rooms[msg.roomId]) else {}) - {sender},
                  Signal(msg.kind, sender, msg.payload))]
    {
      match msg
      case JoinMsg(roomId) =>
        Join(sender, roomId);
      case SignalMsg(kind, roomId, payload, to) =>
        ghost var n := |outbox|;
        Relay(sender, kind, roomId, payload, to);
        assert outbox == outbox[..n] + [outbox[n]];
      case MediaStateMsg(_, _, _) =>
    }
  }

  lemma PrefixStep<T>(s: seq<T>, i: nat)
    requires i < |s|
    ensures s[..i + 1][..i] == s[..i] && s[..i + 1][i] == s[i] && |s[..i + 1]| == i + 1
  {
  }

  lemma DistinctSplit<T>(s: seq<T>, i: nat)
    requires Distinct(s) && i < |s|
    ensures s[i] !in s[..i] && s[i] !in s[i + 1..]
  {
  }

  /** One pass of the disconnect loop over the key order: the visited key
      stays exactly when its list survives. */
  lemma OrderStep(rooms: map<RoomId, seq<ConnId>>, keys: seq<RoomId>, i: nat, x: ConnId)
    requires Distinct(keys) && i < |keys| && keys[i] in rooms
    ensures var s, r := Survivors(rooms, keys[..i], x) + keys[i..], keys[i];
            (if Without(rooms[r], x) == [] then Without(s, r) else s) ==
              Survivors(rooms, keys[..i + 1], x) + keys[i + 1..]
  {
    var r, front, rest := keys[i], Survivors(rooms, keys[..i], x), keys[i + 1..];
    assert keys[..i + 1][..i] == keys[..i];
    assert keys[..i + 1][i] == r;
    assert keys[i..] == [r] + rest;
    assert front + keys[i..] == front + [r] + rest;
    if Without(rooms[r], x) == [] {
      assert Survivors(rooms, keys[..i + 1], x) == front;
      DistinctSplit(keys, i);
      SurvivorsSpec(rooms, keys[..i], x);
      WithoutAbsent(front, r, rest);
    } else {
      assert Survivors(rooms, keys[..i + 1], x) == front + [r];
    }
  }

  /** One pass of the disconnect loop, on values: the table, the key order
      and the outbox after visiting `keys[..i + 1]`. */
  lemma VisitStep(rooms: map<RoomId, seq<ConnId>>, keys: seq<RoomId>, i: nat, x: ConnId,
                  out: seq<Delivery>, joined: set<(RoomId, ConnId)>, everyRoom: bool)
    requires Distinct(keys) && i < |keys| && forall r :: r in keys ==> r in rooms
    ensures var r, before := keys[i], PruneKeys(rooms, keys[..i], x);
            && r in before && before[r] == rooms[r]
            && PruneStep(before, r, x) == PruneKeys(rooms, keys[..i + 1], x)
            && (if Without(rooms[r], x) == [] then Without(Survivors(rooms, keys[..i], x) + keys[i..], r)
                else Survivors(rooms, keys[..i], x) + keys[i..]) ==
                 Survivors(rooms, keys[..i + 1], x) + keys[i + 1..]
            && Notices(out, joined, Notified(rooms, keys[..i + 1], x, everyRoom), x) ==
                 Notices(out, joined, Notified(rooms, keys[..i], x, everyRoom), x)
                 + if everyRoom || x in rooms[r] then [Notice(joined, r, x)] else []
  {
    DistinctSplit(keys, i);
    PruneKeysAt(rooms, keys[..i], x, keys[i]);
    PrefixStep(keys, i);
    OrderStep(rooms, keys, i, x);
    NoticesSnoc(out, joined, Notified(rooms, keys[..i], x, everyRoom), keys[i], x);
  }

  /** One more notified room adds its notice at the end. */
  lemma NoticesSnoc(out: seq<Delivery>, joined: set<(RoomId, ConnId)>, ks: seq<RoomId>, r: RoomId, x: ConnId)
    ensures Notices(out, joined, ks + [r], x) == Notices(out, joined, ks, x) + [Notice(joined, r, x)]
  {
    assert (ks + [r])[..|ks|] == ks;
  }

  /** Filtering distributes over concatenation. */
  lemma {:induction false} WithoutAppend<T(!new)>(s: seq<T>, t: seq<T>, x: T)
    ensures Without(s + t, x) == Without(s, x) + Without(t, x)
  {
    if s == [] {
      assert s + t == t;
    } else {
      assert (s + t)[0] == s[0] && (s + t)[1..] == s[1..] + t;
      WithoutAppend(s[1..], t, x);
    }
  }

  /** Filtering keeps the multiplicity of every other element and drops `x`. */
  lemma {:induction false} WithoutMultiset<T(!new)>(s: seq<T>, x: T)
    ensures multiset(Without(s, x)) == multiset(s)[x := 0]
  {
    if s != [] {
      WithoutMultiset(s[1..], x);
      assert s == [s[0]] + s[1..];
    }
  }

  /** Removing a key that occurs once, between `a` and `b`. */
  lemma WithoutAbsent(a: seq<RoomId>, x: RoomId, b: seq<RoomId>)
    requires x !in a && x !in b
    ensures Without(a + [x] + b, x) == a + b
  {
    assert Without([x], x) == [] by {
      assert [x][1..] == [];
    }
    WithoutAppend(a, [x], x);
    WithoutAppend(a + [x], b, x);
  }

  /** Scenario, opening: `a` and `b` connect and `a` creates `room`. */
  method Open(c: Coordinator, a: ConnId, b: ConnId, room: RoomId)
    requires c.Valid() && c.rooms == map[] && c.order == [] && c.joined == {} && c.connected == {} && c.outbox == []
    modifies c
    ensures c.Valid()
    ensures c.rooms == map[room := [a]] && c.order == [room] && c.joined == {(room, a)}
    ensures c.connected == {a, b} && c.outbox == []
  {
    c.Connect(a);
    c.Connect(b);
    c.Join(a, room);
    assert c.order == [] + [room];
    assert c.joined == {} + {(room, a)};
  }

  /** Scenario, first part: `a` and `b` connect and join `room` in that order. */
  method Meet(c: Coordinator, a: ConnId, b: ConnId, room: RoomId)
    requires a != b
    requires c.Valid() && c.rooms == map[] && c.order == [] && c.joined == {} && c.connected == {} && c.outbox == []
    modifies c
    ensures c.Valid()
    ensures c.rooms == map[room := [a, b]] && c.order == [room]
    ensures c.joined == {(room, a), (room, b)}
    ensures c.connected == {a, b} && c.outbox == [Delivery({a}, UserJoined(b))]
  {
    Open(c, a, b, room);
    assert room in c.rooms && |c.rooms[room]| == 1 && c.rooms[room][0] == a;
    c.Join(b, room);
    assert [a] + [b] == [a, b];
    assert c.rooms == map[room := [a, b]];
    assert c.joined == {(room, a)} + {(room, b)};
    assert {a} - {b} == {a};
  }

  /** Scenario, second part: `a` sends an offer to `b`, `b` answers `a`. */
  method Handshake(c: Coordinator, a: ConnId, b: ConnId, room: RoomId, offer: Blob, answer: Blob)
    requires a != b && a != "" && b != ""
    requires c.Valid() && c.connected == {a, b}
    modifies c
    ensures c.Valid()
    ensures c.rooms == old(c.rooms) && c.order == old(c.order) && c.joined == old(c.joined) && c.connected == {a, b}
    ensures c.outbox == old(c.outbox) + [Delivery({b}, Signal(OfferSignal, a, offer)),
                                         Delivery({a}, Signal(AnswerSignal, b, answer))]
  {
    c.Relay(a, OfferSignal, room, offer, Some(b));
    assert ({b} * {a, b}) - {a} == {b};
    c.Relay(b, AnswerSignal, room, answer, Some(a));
    assert ({a} * {a, b}) - {b} == {a};
  }

  /** Scenario, third part: `b` disconnects from the shared room. */
  method PeerLeaves(c: Coordinator, a: ConnId, b: ConnId, room: RoomId)
    requires a != b
    requires c.Valid() && c.rooms == map[room := [a, b]] && c.order == [room]
    requires c.joined == {(room, a), (room, b)} && c.connected == {a, b}
    modifies c
    ensures c.rooms == map[room := [a]]
    ensures c.outbox == old(c.outbox) + [Delivery({a}, UserLeft(b))]
  {
    ghost var sent := c.outbox;
    assert Without([a, b], b) == [a] by {
      assert [a, b][1..] == [b];
      assert [b][1..] == [];
    }
    DisconnectNotifiesEveryRoom(map[room := [a, b]], [room], {(room, a), (room, b)}, {a, b}, sent, b);
    c.Disconnect(b);
    assert Elems([a]) == {a};
  }

  /** Two clients meet in `room`, exchange an offer and an answer by explicit
      target, and the second one disconnects. */
  method RelayScenario(a: ConnId, b: ConnId, room: RoomId, offer: Blob, answer: Blob)
    returns (toA: seq<Event>, toB: seq<Event>, finalRooms: map<RoomId, seq<ConnId>>)
    requires a != b && a != "" && b != ""
    ensures toA == [UserJoined(b), Signal(AnswerSignal, b, answer), UserLeft(b)]
    ensures toB == [Signal(OfferSignal, a, offer)]
    ensures finalRooms == map[room := [a]]
  {
    var c := new Coordinator();
    Meet(c, a, b, room);
    Handshake(c, a, b, room, offer, answer);
    PeerLeaves(c, a, b, room);
    var d1, d2, d3, d4 := Delivery({a}, UserJoined(b)), Delivery({b}, Signal(OfferSignal, a, offer)),
                          Delivery({a}, Signal(AnswerSignal, b, answer)), Delivery({a}, UserLeft(b));
    assert c.outbox == [d1] + [d2] + [d3] + [d4];
    InboxAppend([d1] + [d2] + [d3], [d4], a);
    InboxAppend([d1] + [d2], [d3], a);
    InboxAppend([d1], [d2], a);
    InboxAppend([d1] + [d2] + [d3], [d4], b);
    InboxAppend([d1] + [d2], [d3], b);
    InboxAppend([d1], [d2], b);
    toA := Inbox(c.outbox, a);
    toB := Inbox(c.outbox, b);
    finalRooms := c.rooms;
  }
}
