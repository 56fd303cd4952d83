/**
 * The room registry of the signalling relay: a map from room id to the
 * sockets in that room, in arrival order, changed by the four socket event
 * handlers `create`, `join`, `signal` and `disconnect`. Every event the relay
 * emits is appended to an outbox, addressed to one socket.
 *
 * The handlers are specified by pure step functions (`CreateStep`,
 * `JoinStep`, `SignalStep`, `DisconnectStep`); the class `RoomRegistry`
 * carries out the same steps imperatively and is proved to agree with them.
 */
module Signaling {
  import opened Wire

  /** A client socket; the relay compares sockets by identity. */
  type Handle = nat

  /** Room id to member sockets, in the order they were added. */
  type Rooms = map<RoomId, seq<Handle>>

  /** One event emitted by the relay to one socket. */
  datatype Emit = Emit(to: Handle, event: RelayEvent)

  /** The effect of one handler: the registry afterwards and what it emitted, in order. */
  datatype Step = Step(rooms: Rooms, out: seq<Emit>)

  const RoomMissing := "Room does not exist"
  const RoomFull := "Room is full"

  /** `join` refuses a room that already holds this many sockets; `create` has no limit. */
  const Capacity := 2

  /** The registry never keeps a room without members. */
  ghost predicate NoEmptyRoom(rooms: Rooms) {
    forall id :: id in rooms ==> rooms[id] != []
  }

  function Members(rooms: Rooms, id: RoomId): seq<Handle> {
    if id in rooms then rooms[id] else []
  }

  /** The sockets the events of `out` are addressed to, in order. */
  function Recipients(out: seq<Emit>): (r: seq<Handle>)
    ensures |r| == |out|
    ensures forall i :: 0 <= i < |out| ==> r[i] == out[i].to
  {
    if out == [] then [] else [out[0].to] + Recipients(out[1..])
  }

  /** The events of `out` addressed to `h`, in order. */
  function EventsTo(out: seq<Emit>, h: Handle): seq<RelayEvent> {
    if out == [] then []
    else (if out[0].to == h then [out[0].event] else []) + EventsTo(out[1..], h)
  }

  // ---------------------------------------------------------------- create

  /** `handleCreate`: adds the socket to the room, creating the room if needed, and acknowledges. */
  function CreateStep(rooms: Rooms, h: Handle, id: RoomId): (r: Step)
    ensures r.rooms.Keys == rooms.Keys + {id}
    ensures id !in rooms ==> r.rooms[id] == [h]
    ensures id in rooms ==> r.rooms[id] == rooms[id] + [h]
    ensures forall other :: other in rooms && other != id ==> r.rooms[other] == rooms[other]
    ensures r.out == [Emit(h, Created)]
    ensures NoEmptyRoom(rooms) ==> NoEmptyRoom(r.rooms)
  {
    Step(rooms[id := Members(rooms, id) + [h]], [Emit(h, Created)])
  }

  // ------------------------------------------------------------------ join

  /** `clients.forEach(client => client.emit(e))`. */
  function Broadcast(clients: seq<Handle>, e: RelayEvent): (r: seq<Emit>)
    ensures Recipients(r) == clients
    ensures forall i :: 0 <= i < |r| ==> r[i].event == e
  {
    seq(|clients|, i requires 0 <= i < |clients| => Emit(clients[i], e))
  }

  /** `handleJoin`. */
  function JoinStep(rooms: Rooms, h: Handle, id: RoomId): (r: Step)
    ensures id !in rooms ==> r == Step(rooms, [Emit(h, Error(RoomMissing))])
    ensures id in rooms && |rooms[id]| >= Capacity ==> r == Step(rooms, [Emit(h, Error(RoomFull))])
    ensures id in rooms && |rooms[id]| < Capacity ==>
              && r.rooms == rooms[id := rooms[id] + [h]]
              && |r.rooms[id]| <= Capacity
              && r.out == [Emit(h, Joined)] + Broadcast(r.rooms[id], Ready)
    ensures NoEmptyRoom(rooms) ==> NoEmptyRoom(r.rooms)
  {
    if id !in rooms then Step(rooms, [Emit(h, Error(RoomMissing))])
    else if |rooms[id]| >= Capacity then Step(rooms, [Emit(h, Error(RoomFull))])
    else
      var clients := rooms[id] + [h];
      Step(rooms[id := clients], [Emit(h, Joined)] + Broadcast(clients, Ready))
  }

  /**
   * A successful join puts the joiner last, acknowledges it first, and then
   * notifies every member (the joiner included) exactly once with `ready`.
   */
  lemma JoinNotifiesEveryMember(rooms: Rooms, h: Handle, id: RoomId)
    requires id in rooms && |rooms[id]| < Capacity
    ensures var r := JoinStep(rooms, h, id);
      && r.rooms[id] == rooms[id] + [h]
      && r.out[0] == Emit(h, Joined)
      && multiset(Recipients(r.out[1..])) == multiset(rooms[id]) + multiset{h}
      && forall i :: 1 <= i < |r.out| ==> r.out[i].event == Ready
  {
    var r := JoinStep(rooms, h, id);
    assert r.out[1..] == Broadcast(rooms[id] + [h], Ready);
  }

  // ---------------------------------------------------------------- signal

  /** `clients.forEach(client => { if (client !== sender) client.emit('signal', p) })`. */
  function Forward(clients: seq<Handle>, sender: Handle, p: Payload): (r: seq<Emit>)
    ensures forall i :: 0 <= i < |r| ==> r[i].to != sender && r[i].event == Relayed(p)
  {
    if clients == [] then []
    else if clients[0] == sender then Forward(clients[1..], sender, p)
    else [Emit(clients[0], Relayed(p))] + Forward(clients[1..], sender, p)
  }

  /** Every member other than the sender receives the payload as many times as it occurs in the room; the sender never. */
  lemma {:induction false} ForwardCounts(clients: seq<Handle>, sender: Handle, p: Payload, x: Handle)
    ensures multiset(Recipients(Forward(clients, sender, p)))[x]
         == if x == sender then 0 else multiset(clients)[x]
    decreases |clients|
  {
    if clients != [] {
      var first: Handle, tail: seq<Handle> := clients[0], clients[1..];
      ForwardCounts(tail, sender, p, x);
      assert multiset(clients)[x] == multiset{first}[x] + multiset(tail)[x] by {
        assert clients == [first] + tail;
      }
      var rest: seq<Emit> := Forward(tail, sender, p);
      if first != sender {
        var sent := [Emit(first, Relayed(p))] + rest;
        assert Recipients(sent) == [first] + Recipients(rest) by {
          assert sent[1..] == rest;
        }
        assert multiset(Recipients(sent))[x] == multiset{first}[x] + multiset(Recipients(rest))[x];
      }
    }
  }

  lemma {:induction false} ForwardAppend(clients: seq<Handle>, c: Handle, sender: Handle, p: Payload)
    ensures Forward(clients + [c], sender, p)
         == Forward(clients, sender, p) + (if c != sender then [Emit(c, Relayed(p))] else [])
    decreases |clients|
  {
    if clients != [] {
      assert (clients + [c])[1..] == clients[1..] + [c];
      ForwardAppend(clients[1..], c, sender, p);
    }
  }

  /** `handleSignal`: forwards the payload to everyone in the room but the sender; nothing for an unknown room. */
  function SignalStep(rooms: Rooms, h: Handle, room: RoomId, p: Payload): (r: Step)
    ensures r.rooms == rooms
    ensures room !in rooms ==> r.out == []
    ensures room in rooms ==> r.out == Forward(rooms[room], h, p)
  {
    if room !in rooms then Step(rooms, []) else Step(rooms, Forward(rooms[room], h, p))
  }

  /**
   * A signal reaches every other member of the room once per membership,
   * carries the payload unchanged and never returns to the sender.
   */
  lemma SignalReachesOthersOnce(rooms: Rooms, h: Handle, room: RoomId, p: Payload, x: Handle)
    requires room in rooms
    ensures var out := SignalStep(rooms, h, room, p).out;
      && multiset(Recipients(out))[x] == (if x == h then 0 else multiset(rooms[room])[x])
      && forall i :: 0 <= i < |out| ==> out[i].event == Relayed(p)
  {
    ForwardCounts(rooms[room], h, p, x);
  }

  // ------------------------------------------------------------ disconnect

  /** `clients.indexOf(h)`: the first position of `h`, or -1. */
  function IndexOf(s: seq<Handle>, h: Handle): (i: int)
    ensures -1 <= i < |s|
    ensures i == -1 <==> h !in s
    ensures 0 <= i ==> s[i] == h && h !in s[..i]
  {
    if s == [] then -1
    else if s[0] == h then 0
    else
      var j := IndexOf(s[1..], h);
      if j == -1 then -1
      else
        assert s[..j + 1] == [s[0]] + s[1..][..j];
        j + 1
  }

  /** The member list after `splice(indexOf(h), 1)`: the first copy of `h` removed, if any. */
  function Leave(clients: seq<Handle>, h: Handle): (r: seq<Handle>)
    ensures h !in clients ==> r == clients
    ensures h in clients ==> |r| == |clients| - 1
    ensures h in clients ==> r == clients[..IndexOf(clients, h)] + clients[IndexOf(clients, h) + 1..]
    ensures multiset(r) == multiset(clients) - multiset{h}
  {
    var i := IndexOf(clients, h);
    if i == -1 then clients
    else
      assert clients == clients[..i] + [h] + clients[i + 1..];
      clients[..i] + clients[i + 1..]
  }

  /** A room is deleted when `h` was found in it and the splice left it empty. */
  predicate Survives(clients: seq<Handle>, h: Handle) {
    IndexOf(clients, h) == -1 || Leave(clients, h) != []
  }

  /** The `disconnect` handler's effect on the registry. */
  function DisconnectRooms(rooms: Rooms, h: Handle): (r: Rooms)
    ensures r.Keys <= rooms.Keys
    ensures forall id :: id in rooms ==> multiset(Members(r, id)) == multiset(rooms[id]) - multiset{h}
  {
    var r := map id | id in rooms && Survives(rooms[id], h) :: Leave(rooms[id], h);
    assert forall id :: id in rooms ==> multiset(Members(r, id)) == multiset(rooms[id]) - multiset{h} by {
      forall id | id in rooms ensures multiset(Members(r, id)) == multiset(rooms[id]) - multiset{h} {
        if id !in r {
          assert Leave(rooms[id], h) == [];
        }
      }
    }
    r
  }

  /**
   * On `disconnect`, a room without the socket is untouched; a room with it
   * loses exactly one copy (the first), and is deleted exactly when that was
   * its last member. No other room appears.
   */
  lemma DisconnectEffect(rooms: Rooms, h: Handle, id: RoomId)
    ensures var r := DisconnectRooms(rooms, h);
      && (id in r ==> id in rooms)
      && (id in rooms && h !in rooms[id] ==> id in r && r[id] == rooms[id])
      && (id in rooms && h in rooms[id] ==> (id in r <==> |rooms[id]| > 1))
      && (id in r ==> r[id] == Leave(rooms[id], h))
      && (id in r ==> multiset(r[id]) == multiset(rooms[id]) - multiset{h})
  {
  }

  /** `after` holds for `id` what `disconnect` of `h` leaves of `before`'s entry. */
  ghost predicate LeftBy(before: Rooms, after: Rooms, h: Handle, id: RoomId) {
    && (id in after <==> id in before && Survives(before[id], h))
    && (id in after ==> after[id] == Leave(before[id], h))
  }

  /** Room by room, `DisconnectRooms` is what `LeftBy` describes. */
  lemma DisconnectRoomsAt(rooms: Rooms, h: Handle, id: RoomId)
    ensures LeftBy(rooms, DisconnectRooms(rooms, h), h, id)
  {
  }

  /** Two registries that both agree room by room with one `disconnect` are the same registry. */
  lemma LeftByDetermines(before: Rooms, x: Rooms, y: Rooms, h: Handle)
    requires forall id :: LeftBy(before, x, h, id)
    requires forall id :: LeftBy(before, y, h, id)
    ensures x == y
  {
    assert x.Keys == y.Keys by {
      forall id ensures id in x <==> id in y {
        assert LeftBy(before, x, h, id) && LeftBy(before, y, h, id);
      }
    }
    forall id | id in x ensures x[id] == y[id] {
      assert LeftBy(before, x, h, id) && LeftBy(before, y, h, id);
    }
  }

  lemma DisconnectRoomsUnique(before: Rooms, after: Rooms, h: Handle)
    requires forall id :: LeftBy(before, after, h, id)
    ensures after == DisconnectRooms(before, h)
  {
    var r := DisconnectRooms(before, h);
    forall id ensures LeftBy(before, r, h, id) {
      DisconnectRoomsAt(before, h, id);
    }
    LeftByDetermines(before, after, r, h);
  }

  /** One room's share of `disconnect`: splice out the first copy of `h`, and delete the room if that emptied it. */
  function LeaveRoom(rooms: Rooms, id: RoomId, h: Handle): Rooms
    requires id in rooms
  {
    var clients := rooms[id];
    var index := IndexOf(clients, h);
    if index == -1 then rooms
    else
      var rest := clients[..index] + clients[index + 1..];
      if rest == [] then rooms - {id} else rooms[id := rest]
  }

  /** `LeaveRoom` does to room `id` what `disconnect` does to it. */
  lemma LeaveRoomHere(rooms: Rooms, id: RoomId, h: Handle)
    requires id in rooms
    ensures var after := LeaveRoom(rooms, id, h);
      && (id in after <==> Survives(rooms[id], h))
      && (id in after ==> after[id] == Leave(rooms[id], h))
  {
  }

  /** `LeaveRoom` on `id` leaves the entry of every other room as it was. */
  lemma LeaveRoomElsewhere(rooms: Rooms, id: RoomId, h: Handle, other: RoomId)
    requires id in rooms && other != id
    ensures var after := LeaveRoom(rooms, id, h);
      && (other in after <==> other in rooms)
      && (other in after ==> after[other] == rooms[other])
  {
  }

  /**
   * The registry part-way through `disconnect`, as the loop sees it: the
   * rooms of `todo` still hold what they held, every other room holds what
   * `disconnect` leaves of it.
   */
  ghost predicate PartlyLeft(orig: Rooms, current: Rooms, h: Handle, todo: set<RoomId>) {
    && todo <= orig.Keys
    && (forall other :: other in todo ==> other in current && current[other] == orig[other])
    && (forall other :: other !in todo ==> LeftBy(orig, current, h, other))
  }

  lemma PartlyLeftStart(rooms: Rooms, h: Handle)
    ensures PartlyLeft(rooms, rooms, h, rooms.Keys)
  {
  }

  /** Visiting one more room of `todo` takes the registry one room further through `disconnect`. */
  lemma LeaveRoomStep(orig: Rooms, before: Rooms, h: Handle, id: RoomId, todo: set<RoomId>)
    requires id in todo && PartlyLeft(orig, before, h, todo)
    ensures id in before
    ensures PartlyLeft(orig, LeaveRoom(before, id, h), h, todo - {id})
  {
    var after := LeaveRoom(before, id, h);
    forall other | other in todo - {id} ensures other in after && after[other] == orig[other] {
      LeaveRoomElsewhere(before, id, h, other);
    }
    forall other | other !in todo - {id} ensures LeftBy(orig, after, h, other) {
      if other == id {
        LeaveRoomHere(before, id, h);
      } else {
        assert LeftBy(orig, before, h, other);
        LeaveRoomElsewhere(before, id, h, other);
      }
    }
  }

  /** Once every room has been visited, the registry is what `disconnect` computes. */
  lemma PartlyLeftEnd(orig: Rooms, current: Rooms, h: Handle)
    requires PartlyLeft(orig, current, h, {})
    ensures current == DisconnectRooms(orig, h)
  {
    DisconnectRoomsUnique(orig, current, h);
  }

  /** No room is ever left empty by `disconnect`. */
  lemma DisconnectKeepsRoomsNonEmpty(rooms: Rooms, h: Handle)
    requires NoEmptyRoom(rooms)
    ensures NoEmptyRoom(DisconnectRooms(rooms, h))
  {
  }

  function DisconnectStep(rooms: Rooms, h: Handle): (r: Step)
    ensures r.out == []
  {
    Step(DisconnectRooms(rooms, h), [])
  }

  // ------------------------------------------------------------- scenarios

  /** Once a room holds two sockets, a third `join` is refused and the room is unchanged. */
  lemma ThirdJoinRefused(rooms: Rooms, id: RoomId, a: Handle, b: Handle, c: Handle)
    requires id !in rooms
    ensures var s1 := CreateStep(rooms, a, id);
            var s2 := JoinStep(s1.rooms, b, id);
            var s3 := JoinStep(s2.rooms, c, id);
      && s2.rooms[id] == [a, b]
      && s3 == Step(s2.rooms, [Emit(c, Error(RoomFull))])
  {
  }

  /** `splice` removes the first copy and keeps the order of the rest: `[h, a, h]` becomes `[a, h]`. */
  lemma LeaveRemovesFirstCopy(h: Handle, a: Handle)
    requires a != h
    ensures Leave([h, a, h], h) == [a, h]
  {
    assert IndexOf([h, a, h], h) == 0;
    assert [h, a, h][..0] + [h, a, h][1..] == [a, h];
  }

  /** After both members of a room disconnect, the room is gone and `join` fails as for an unknown id. */
  lemma DrainedRoomIsReclaimed(rooms: Rooms, id: RoomId, a: Handle, b: Handle, c: Handle)
    requires id !in rooms && a != b
    ensures var s1 := CreateStep(rooms, a, id);
            var s2 := JoinStep(s1.rooms, b, id);
            var s3 := DisconnectStep(DisconnectStep(s2.rooms, a).rooms, b);
      && id !in s3.rooms
      && JoinStep(s3.rooms, c, id).out == [Emit(c, Error(RoomMissing))]
  {
    var s2 := JoinStep(CreateStep(rooms, a, id).rooms, b, id);
    assert s2.rooms[id] == [a, b];
    var s3a := DisconnectStep(s2.rooms, a);
    assert Leave([a, b], a) == [b] by {
      assert IndexOf([a, b], a) == 0;
      assert [a, b][..0] + [a, b][1..] == [b];
    }
    DisconnectRoomsAt(s2.rooms, a, id);
    assert s3a.rooms[id] == [b];
    assert Leave([b], b) == [] by {
      assert IndexOf([b], b) == 0;
    }
    DisconnectRoomsAt(s3a.rooms, b, id);
  }

  /** Repeated `create` on one id is not refused: a room can grow past the join capacity. */
  lemma CreateIgnoresCapacity(id: RoomId, a: Handle, b: Handle, c: Handle)
    ensures var s1 := CreateStep(map[], a, id);
            var s2 := CreateStep(s1.rooms, b, id);
            CreateStep(s2.rooms, c, id).rooms[id] == [a, b, c]
  {
  }

  /** Two `create`s by the same socket put it in the room twice. */
  lemma CreateTwice(id: RoomId, a: Handle)
    ensures CreateStep(CreateStep(map[], a, id).rooms, a, id).rooms == map[id := [a, a]]
  {
    var s1 := CreateStep(map[], a, id);
    assert [] + [a] == [a];
    assert s1.rooms == map[id := [a]];
    assert [a] + [a] == [a, a];
  }

  /**
   * A socket that is in a room twice leaves one copy behind when it
   * disconnects: only the first occurrence is spliced out.
   */
  lemma DisconnectRemovesOneCopy(id: RoomId, a: Handle)
    ensures DisconnectStep(map[id := [a, a]], a).rooms == map[id := [a]]
  {
    var m := map[id := [a, a]];
    assert IndexOf([a, a], a) == 0;
    assert Leave([a, a], a) == [a];
    forall x ensures LeftBy(m, map[id := [a]], a, x) {
      if x == id {
        assert Survives(m[x], a);
      }
    }
    DisconnectRoomsUnique(m, map[id := [a]], a);
  }

  // ------------------------------------------------------------ the relay

  /** The relay's shared state: the `rooms` map and everything emitted so far. */
  class RoomRegistry {
    var rooms: Rooms
    var outbox: seq<Emit>

    ghost predicate Valid()
      reads this
    {
      NoEmptyRoom(rooms)
    }

    constructor ()
      ensures Valid() && rooms == map[] && outbox == []
    {
      rooms := map[];
      outbox := [];
    }

    method HandleCreate(h: Handle, id: RoomId)
      requires Valid()
      modifies this
      ensures Valid()
      ensures rooms == CreateStep(old(rooms), h, id).rooms
      ensures outbox == old(outbox) + CreateStep(old(rooms), h, id).out
    {
      if id !in rooms {
        rooms := rooms[id := []];
      }
      assert rooms[id] == Members(old(rooms), id);
      rooms := rooms[id := rooms[id] + [h]];
      assert rooms == old(rooms)[id := Members(old(rooms), id) + [h]];
      outbox := outbox + [Emit(h, Created)];
    }

    method HandleJoin(h: Handle, id: RoomId)
      requires Valid()
      modifies this
      ensures Valid()
      ensures rooms == JoinStep(old(rooms), h, id).rooms
      ensures outbox == old(outbox) + JoinStep(old(rooms), h, id).out
    {
      if id !in rooms {
        outbox := outbox + [Emit(h, Error(RoomMissing))];
        return;
      }
      var clients := rooms[id];
      if |clients| >= Capacity {
        outbox := outbox + [Emit(h, Error(RoomFull))];
        return;
      }
      clients := clients + [h];
      rooms := rooms[id := clients];
      outbox := outbox + [Emit(h, Joined)];
      ghost var acknowledged := outbox;
      var i := 0;
      while i < |clients|
        invariant 0 <= i <= |clients|
        invariant rooms == old(rooms)[id := clients]
        invariant outbox == acknowledged + Broadcast(clients[..i], Ready)
      {
        assert Broadcast(clients[..i + 1], Ready) == Broadcast(clients[..i], Ready) + [Emit(clients[i], Ready)];
        outbox := outbox + [Emit(clients[i], Ready)];
        i := i + 1;
      }
      assert clients[..i] == clients;
    }

    method HandleSignal(h: Handle, room: RoomId, signal: Payload)
      requires Valid()
      modifies this
      ensures Valid()
      ensures rooms == old(rooms)
      ensures outbox == old(outbox) + SignalStep(old(rooms), h, room, signal).out
    {
      if room !in rooms {
        return;
      }
      var clients := rooms[room];
      var i := 0;
      while i < |clients|
        invariant 0 <= i <= |clients|
        invariant rooms == old(rooms)
        invariant outbox == old(outbox) + Forward(clients[..i], h, signal)
      {
        ForwardAppend(clients[..i], clients[i], h, signal);
        assert clients[..i + 1] == clients[..i] + [clients[i]];
        if clients[i] != h {
          outbox := outbox + [Emit(clients[i], Relayed(signal))];
        }
        i := i + 1;
      }
      assert clients[..i] == clients;
    }

    /** The `disconnect` handler: visits every room (in any order; rooms are handled independently). */
    method HandleDisconnect(h: Handle)
      requires Valid()
      modifies this
      ensures Valid()
      ensures rooms == DisconnectStep(old(rooms), h).rooms
      ensures outbox == old(outbox)
    {
      var todo := rooms.Keys;
      PartlyLeftStart(rooms, h);
      while todo != {}
        invariant PartlyLeft(old(rooms), rooms, h, todo)
        invariant outbox == old(outbox)
        decreases |todo|
      {
        var id :| id in todo;
        LeaveRoomStep(old(rooms), rooms, h, id, todo);
        ghost var after := LeaveRoom(rooms, id, h);
        var clients := rooms[id];
        var index := IndexOf(clients, h);
        if index != -1 {
          clients := clients[..index] + clients[index + 1..];
          if |clients| == 0 {
            rooms := rooms - {id};
          } else {
            rooms := rooms[id := clients];
          }
        }
        assert rooms == after;
        todo := todo - {id};
      }
      PartlyLeftEnd(old(rooms), rooms, h);
      DisconnectKeepsRoomsNonEmpty(old(rooms), h);
    }
  }
}
