/**
 * The part of the socket.io runtime that the game server's handlers touch,
 * kept as plain state: a connected socket with the session attributes the
 * handlers read and write, and the server object `io` with its namespace
 * socket table, the adapter's room index and the engine's client count.
 */
module Sockets {
  import opened Wrappers

  type SocketId = nat
  type RoomId = string

  /** A character record as the character and player controllers return it,
      restricted to the fields the handlers read. */
  datatype Character = Character(
    id: nat, name: string, classe: string, race: string, level: int,
    posX: real, posY: real, posZ: real, mapName: RoomId)

  /** A socket fetched from a room, reduced to what the nearby-players loop reads. */
  datatype Peer = Peer(id: SocketId, character: Option<Character>)

  predicate DistinctIds(peers: seq<Peer>) {
    forall i, j :: 0 <= i < j < |peers| ==> peers[i].id != peers[j].id
  }

  /** One connected client. `accountId` is bound by the authentication step
      that runs before any handler; `characterId` and `character` are the
      session attributes the handlers set. */
  class Socket {
    const id: SocketId
    var accountId: Option<nat>
    var characterId: Option<nat>
    var character: Option<Character>

    constructor (id: SocketId, accountId: Option<nat>)
      ensures this.id == id && this.accountId == accountId
      ensures characterId == None && character == None
    {
      this.id := id;
      this.accountId := accountId;
      characterId := None;
      character := None;
    }
  }

  /** The socket.io server. `sockets` is the default namespace's socket table,
      `rooms` the adapter's room index (a JavaScript Set keeps insertion
      order, so each room is a sequence without duplicates) and
      `clientsCount` the engine's count of open connections. */
  class Io {
    var sockets: map<SocketId, Socket>
    var rooms: map<RoomId, seq<SocketId>>
    var clientsCount: nat

    ghost predicate Valid()
      reads this
    {
      && (forall id :: id in sockets ==> sockets[id].id == id)
      && (forall r :: r in rooms ==> NoDuplicates(rooms[r]))
      && (forall r, id :: r in rooms && id in rooms[r] ==> id in sockets)
    }

    constructor (clientsCount: nat)
      ensures Valid()
      ensures sockets == map[] && rooms == map[] && this.clientsCount == clientsCount
    {
      sockets := map[];
      rooms := map[];
      this.clientsCount := clientsCount;
    }

    /** The members of `room`, in the order they joined. */
    function Members(room: RoomId): seq<SocketId>
      reads this
    {
      if room in rooms then rooms[room] else []
    }

    /** The sockets a `socket.to(room).emit(...)` from `sender` reaches:
        every member of the room but the sender. */
    function RoomExcept(room: RoomId, sender: SocketId): set<SocketId>
      reads this
    {
      (set id | id in Members(room)) - {sender}
    }

    /** `socket.join(room)`: the socket is added to the room's member set,
        where joining twice has no further effect, and its membership of
        every other room is left as it was. */
    method Join(s: Socket, room: RoomId)
      requires Valid() && s.id in sockets
      modifies this`rooms
      ensures Valid()
      ensures s.id in Members(room)
      ensures Members(room) ==
        if s.id in old(Members(room)) then old(Members(room)) else old(Members(room)) + [s.id]
      ensures forall r :: r != room ==> Members(r) == old(Members(r))
    {
      var members := Members(room);
      if s.id !in members {
        rooms := rooms[room := members + [s.id]];
      }
    }

    /** The sockets `io.in(room).fetchSockets()` yields for the member ids
        `ids`, seen through the two attributes the handlers read. */
    function PeersOf(ids: seq<SocketId>): (r: seq<Peer>)
      requires forall id :: id in ids ==> id in sockets
      reads this, sockets.Values
      ensures |r| == |ids|
      ensures forall k :: 0 <= k < |ids| ==> r[k] == Peer(ids[k], sockets[ids[k]].character)
    {
      if ids == [] then []
      else PeersOf(ids[..|ids| - 1]) + [Peer(ids[|ids| - 1], sockets[ids[|ids| - 1]].character)]
    }
  }
}
