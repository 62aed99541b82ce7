/**
 * The socket event handlers of the game server: the server list with its
 * locally synthesised fallback, character creation, listing and selection,
 * and entering the world, which joins the character's map room, builds the
 * view of the other players already there and announces the newcomer.
 *
 * The controllers and the monster lookup are not modelled: what they return,
 * or that they throw, is an input of the handler. What a handler does
 * outwards is its result: the controller calls it awaited, the one reply to
 * its own socket and the room broadcast, if any.
 */
module CharacterEvents {
  import opened Wrappers
  import opened Sockets

  // Error texts the handlers reply with.
  const NotAuthenticated := "Não autenticado"
  const MissingCharacterFields := "Nome, classe e raça são obrigatórios"
  const MissingCharacterId := "ID do personagem é obrigatório"
  const InternalError := "Erro interno do servidor"

  // Event names of the replies.
  const GetServersResponse := "get_servers_response"
  const CreateCharacterResponse := "create_character_response"
  const GetCharactersResponse := "get_characters_response"
  const SelectCharacterResponse := "select_character_response"
  const EnterWorldResponse := "enter_world_response"

  /* ---------------------------------------------------------------------- */
  /* Server list                                                            */
  /* ---------------------------------------------------------------------- */

  datatype ServerEntry = ServerEntry(
    id: nat, name: string, status: string, playerCount: nat, maxPlayers: nat)

  /** The three servers reported when the status store cannot be used: the
      first carries the live client count, the second a share of it, the
      third is in maintenance with nobody on it. */
  function FallbackServers(clientsCount: nat): (r: seq<ServerEntry>)
    ensures |r| == 3
    ensures r[0].id == 1 && r[1].id == 2 && r[2].id == 3
    ensures r[0].status == "online" && r[1].status == "online" && r[2].status == "maintenance"
    ensures r[0].playerCount == clientsCount
    ensures 0 <= r[1].playerCount <= r[0].playerCount
    ensures r[2].playerCount == 0
    ensures forall k :: 0 <= k < |r| ==> r[k].maxPlayers == 1000
  {
    [ ServerEntry(1, "Server 1 - Gludin", "online", clientsCount, 1000),
      ServerEntry(2, "Server 2 - Giran", "online", clientsCount * 7 / 10, 1000),
      ServerEntry(3, "Server 3 - Dion", "maintenance", 0, 1000) ]
  }

  /* ---------------------------------------------------------------------- */
  /* Presence: the nearby players and the join notice                       */
  /* ---------------------------------------------------------------------- */

  /** The public fields of a character, as sent to other players. */
  datatype PlayerInfo = PlayerInfo(
    characterId: nat, name: string, classe: string, race: string, level: int,
    posX: real, posY: real, posZ: real)

  datatype Monster = Monster(id: nat, name: string)

  datatype SpawnInfo = SpawnInfo(
    x: real, y: real, z: real, mapName: RoomId,
    nearbyPlayers: seq<PlayerInfo>, monsters: seq<Monster>)

  /** `info` shows the character `c`: its id, name, class, race, level and
      position, and nothing about its map. */
  predicate Describes(info: PlayerInfo, c: Character) {
    && info.characterId == c.id && info.name == c.name && info.classe == c.classe
    && info.race == c.race && info.level == c.level
    && info.posX == c.posX && info.posY == c.posY && info.posZ == c.posZ
  }

  /** The public fields of a character, as the nearby-players entries and
      the `player_joined` notice carry them: the one view that describes it. */
  function PublicFields(c: Character): (r: PlayerInfo)
    ensures Describes(r, c)
    ensures forall info :: Describes(info, c) ==> info == r
  {
    PlayerInfo(c.id, c.name, c.classe, c.race, c.level, c.posX, c.posY, c.posZ)
  }

  /** The spawn info sent to the entering socket. It places the character
      where the `player_joined` notice about it says it is, on its own map. */
  function SpawnFor(c: Character, nearby: seq<PlayerInfo>, monsters: seq<Monster>): (r: SpawnInfo)
    ensures r.x == PublicFields(c).posX && r.y == PublicFields(c).posY && r.z == PublicFields(c).posZ
    ensures r.mapName == c.mapName
    ensures r.nearbyPlayers == nearby && r.monsters == monsters
  {
    SpawnInfo(c.posX, c.posY, c.posZ, c.mapName, nearby, monsters)
  }

  /** A fetched room socket shows up among the nearby players when it is not
      the joining socket and has a character. */
  predicate Visible(p: Peer, self: SocketId) {
    p.id != self && p.character.Some?
  }

  /** The room sockets the nearby-players loop keeps, in fetch order. */
  function VisiblePeers(peers: seq<Peer>, self: SocketId): (r: seq<Peer>)
    ensures forall p :: p in r <==> p in peers && Visible(p, self)
  {
    if peers == [] then []
    else
      var init, last := peers[..|peers| - 1], peers[|peers| - 1];
      assert peers == init + [last];
      VisiblePeers(init, self) + (if Visible(last, self) then [last] else [])
  }

  /** Fetched sockets with distinct ids keep distinct ids after filtering,
      so no socket is kept twice. */
  lemma {:induction false} VisiblePeersDistinct(peers: seq<Peer>, self: SocketId)
    requires DistinctIds(peers)
    ensures DistinctIds(VisiblePeers(peers, self))
  {
    if peers != [] {
      var init, last := peers[..|peers| - 1], peers[|peers| - 1];
      assert peers == init + [last];
      VisiblePeersDistinct(init, self);
      var v := VisiblePeers(init, self);
      forall p | p in v ensures p.id != last.id {
        var k :| 0 <= k < |init| && init[k] == p;
        assert peers[k] == p;
      }
    }
  }

  /** What the nearby-players loop pushes, one entry per kept socket. */
  function NearbyPlayers(peers: seq<Peer>, self: SocketId): seq<PlayerInfo> {
    if peers == [] then []
    else
      var init, last := peers[..|peers| - 1], peers[|peers| - 1];
      NearbyPlayers(init, self)
        + (if Visible(last, self) then [PublicFields(last.character.value)] else [])
  }

  /** The nearby players are the kept sockets' public fields, position by position. */
  lemma {:induction false} NearbyPlayersProjects(peers: seq<Peer>, self: SocketId)
    ensures |NearbyPlayers(peers, self)| == |VisiblePeers(peers, self)|
    ensures forall k :: 0 <= k < |VisiblePeers(peers, self)| ==>
      VisiblePeers(peers, self)[k].character.Some? &&
      NearbyPlayers(peers, self)[k] == PublicFields(VisiblePeers(peers, self)[k].character.value)
  {
    if peers != [] {
      NearbyPlayersProjects(peers[..|peers| - 1], self);
    }
  }

  function IdsOf(ps: seq<Peer>): set<SocketId> {
    set p | p in ps :: p.id
  }

  /** Removing the last socket removes its id and no other. */
  lemma IdsOfLast(ps: seq<Peer>)
    requires ps != []
    ensures IdsOf(ps) == IdsOf(ps[..|ps| - 1]) + {ps[|ps| - 1].id}
  {
    var init, last := ps[..|ps| - 1], ps[|ps| - 1];
    assert ps == init + [last];
    forall id | id in IdsOf(ps) ensures id in IdsOf(init) + {last.id} {
      var p :| p in ps && p.id == id;
      assert p == last || p in init;
    }
  }

  /** In a sequence with distinct ids, the prefix keeps them distinct and the
      last id does not occur in it. */
  lemma LastIdFresh(ps: seq<Peer>)
    requires ps != [] && DistinctIds(ps)
    ensures DistinctIds(ps[..|ps| - 1])
    ensures ps[|ps| - 1].id !in IdsOf(ps[..|ps| - 1])
  {
    var init, last := ps[..|ps| - 1], ps[|ps| - 1];
    forall p | p in init ensures p.id != last.id {
      var k :| 0 <= k < |init| && init[k] == p;
      assert ps[k] == p;
    }
  }

  /** A sequence of sockets with distinct ids has as many ids as elements. */
  lemma {:induction false} DistinctIdsCount(ps: seq<Peer>)
    requires DistinctIds(ps)
    ensures |IdsOf(ps)| == |ps|
  {
    if ps != [] {
      LastIdFresh(ps);
      DistinctIdsCount(ps[..|ps| - 1]);
      IdsOfLast(ps);
    }
  }

  /** The ids of the sockets that appear among the nearby players. */
  function VisibleIds(peers: seq<Peer>, self: SocketId): set<SocketId> {
    set p | p in peers && Visible(p, self) :: p.id
  }

  /** For fetched sockets with distinct ids: an entry is among the nearby
      players exactly when it is the public view of another socket that has
      a character, and there is one entry for each such socket. */
  lemma NearbyPlayersExact(peers: seq<Peer>, self: SocketId)
    requires DistinctIds(peers)
    ensures forall info :: info in NearbyPlayers(peers, self) <==>
      exists p :: p in peers && Visible(p, self) && info == PublicFields(p.character.value)
    ensures |NearbyPlayers(peers, self)| == |VisibleIds(peers, self)|
  {
    var v, n := VisiblePeers(peers, self), NearbyPlayers(peers, self);
    NearbyPlayersProjects(peers, self);
    forall info | info in n
      ensures exists p :: p in peers && Visible(p, self) && info == PublicFields(p.character.value)
    {
      var k :| 0 <= k < |n| && n[k] == info;
      assert v[k] in v;
    }
    forall p | p in peers && Visible(p, self)
      ensures PublicFields(p.character.value) in n
    {
      assert p in v;
      var k :| 0 <= k < |v| && v[k] == p;
      assert n[k] == PublicFields(p.character.value);
    }
    VisiblePeersDistinct(peers, self);
    DistinctIdsCount(v);
    assert IdsOf(v) == VisibleIds(peers, self);
  }

  /** The other sockets in `room` that have a character. */
  function OthersWithCharacter(io: Io, room: RoomId, self: SocketId): set<SocketId>
    reads io, io.sockets.Values
  {
    set id | id in io.Members(room) && id != self && id in io.sockets
      && io.sockets[id].character.Some?
  }

  /** The fetched view of a room, in a consistent server: the members are
      known sockets with distinct ids, and a fetched socket is visible exactly
      when it stands for one of the other members that have a character. */
  lemma RoomPeersVisible(io: Io, room: RoomId, self: SocketId)
    requires io.Valid()
    ensures forall id :: id in io.Members(room) ==> id in io.sockets
    ensures DistinctIds(io.PeersOf(io.Members(room)))
    ensures forall p :: p in io.PeersOf(io.Members(room)) && Visible(p, self) ==>
      p.id in OthersWithCharacter(io, room, self) && p.character == io.sockets[p.id].character
    ensures forall id :: id in OthersWithCharacter(io, room, self) ==>
      var p := Peer(id, io.sockets[id].character);
      p in io.PeersOf(io.Members(room)) && Visible(p, self)
  {
    var ids := io.Members(room);
    var peers := io.PeersOf(ids);
    assert NoDuplicates(ids);
    forall p | p in peers && Visible(p, self)
      ensures p.id in OthersWithCharacter(io, room, self) && p.character == io.sockets[p.id].character
    {
      var k :| 0 <= k < |peers| && peers[k] == p;
      assert ids[k] in ids;
    }
    forall id | id in OthersWithCharacter(io, room, self)
      ensures Peer(id, io.sockets[id].character) in peers
    {
      var k :| 0 <= k < |ids| && ids[k] == id;
      assert peers[k] in peers;
    }
  }

  /** In a consistent server, the nearby players computed from `room` hold
      exactly the public fields of the other sockets in that room that have
      a character, one entry per socket, and nothing from the joining socket. */
  lemma NearbyPlayersOfRoom(io: Io, room: RoomId, self: SocketId)
    requires io.Valid()
    ensures forall id :: id in io.Members(room) ==> id in io.sockets
    ensures forall info :: info in NearbyPlayers(io.PeersOf(io.Members(room)), self) <==>
      exists id :: (id in OthersWithCharacter(io, room, self)
                    && info == PublicFields(io.sockets[id].character.value))
    ensures |NearbyPlayers(io.PeersOf(io.Members(room)), self)| == |OthersWithCharacter(io, room, self)|
  {
    var peers := io.PeersOf(io.Members(room));
    var others := OthersWithCharacter(io, room, self);
    RoomPeersVisible(io, room, self);
    NearbyPlayersExact(peers, self);
    forall info | info in NearbyPlayers(peers, self)
      ensures exists id :: (id in others && info == PublicFields(io.sockets[id].character.value))
    {
      var p :| p in peers && Visible(p, self) && info == PublicFields(p.character.value);
      assert p.id in others;
    }
    forall id | id in others
      ensures PublicFields(io.sockets[id].character.value) in NearbyPlayers(peers, self)
    {
      assert Peer(id, io.sockets[id].character) in peers;
    }
    assert VisibleIds(peers, self) == others by {
      forall id | id in others ensures id in VisibleIds(peers, self) {
        assert Peer(id, io.sockets[id].character) in peers;
      }
    }
  }

  /* ---------------------------------------------------------------------- */
  /* Requests, replies and what an event does outwards                      */
  /* ---------------------------------------------------------------------- */

  /** A JavaScript id attribute is missing when it is undefined or 0. */
  predicate Truthy(id: Option<nat>) {
    id.Some? && id.value != 0
  }

  /** A JavaScript string attribute is missing when it is undefined or "". */
  predicate Given(s: Option<string>) {
    s.Some? && s.value != ""
  }

  /** The payload of `create_character`. */
  datatype CharacterForm = CharacterForm(name: Option<string>, classe: Option<string>, race: Option<string>) {
    predicate Complete() {
      Given(name) && Given(classe) && Given(race)
    }
  }

  /** The payload of `select_character` and `enter_world`. */
  datatype CharacterRequest = CharacterRequest(characterId: Option<nat>)

  /** A controller's reply object: `success: true` with its data, or `success: false` with an error. */
  datatype Outcome<+T> = Ok(value: T) | Err(error: string)

  /** An awaited call: it returns a value or throws. */
  datatype Attempt<+T> = Returned(value: T) | Threw

  /** The object inside a `*_response` event. */
  datatype Body =
    | Failed(error: string)                              // { success: false, error }
    | Servers(servers: seq<ServerEntry>)                  // { success: true, servers }
    | RelayedCharacter(result: Outcome<Character>)        // the controller's result, as it came
    | RelayedCharacters(list: Outcome<seq<Character>>)    // the controller's result, as it came
    | Entered(character: Character, spawnInfo: SpawnInfo) // { success: true, character, spawnInfo }
  {
    predicate Success() {
      match this
      case Failed(_) => false
      case Servers(_) => true
      case RelayedCharacter(r) => r.Ok?
      case RelayedCharacters(r) => r.Ok?
      case Entered(_, _) => true
    }
  }

  /** A call into a controller or into the monster store, with its arguments. */
  datatype ControllerCall =
    | GetServers
    | CreateCharacter(accountId: nat, name: string, classe: string, race: string)
    | GetCharacters(accountId: nat)
    | SelectCharacter(characterId: nat)
    | GetPlayer(characterId: nat)
    | FindMonsters(mapName: RoomId)

  /** The reply an event emits to its own socket. */
  datatype Reply = Reply(event: string, body: Body)

  /** `player_joined`, broadcast to every member of `room` but the sender. */
  datatype Notice = PlayerJoined(room: RoomId, recipients: set<SocketId>, player: PlayerInfo)

  /** What one event did outwards: the controller calls it awaited, in order,
      then its reply, then the notice it broadcast, if any. Every path of a
      handler ends in exactly one reply, so an event has exactly one. */
  datatype Exchange = Exchange(calls: seq<ControllerCall>, reply: Reply, notice: Option<Notice>)

  /* ---------------------------------------------------------------------- */
  /* The handlers                                                           */
  /* ---------------------------------------------------------------------- */

  /** An exchange that stops at a guard: one failure reply, no call. */
  function Refused(event: string, error: string): Exchange {
    Exchange([], Reply(event, Failed(error)), None)
  }

  /** The handlers registered for one socket of one server. Each method is
      one event run to completion and returns what it did outwards. */
  class Handlers {
    const io: Io
    const socket: Socket

    ghost predicate Valid()
      reads io
    {
      io.Valid() && socket.id in io.sockets && io.sockets[socket.id] == socket
    }

    constructor (io: Io, socket: Socket)
      requires io.Valid() && socket.id in io.sockets && io.sockets[socket.id] == socket
      ensures Valid()
      ensures this.io == io && this.socket == socket
    {
      this.io := io;
      this.socket := socket;
    }

    /** `get_servers`: always a successful reply; the fallback list stands in
        when the controller reports failure and when it throws. */
    method GetServersEvent(servers: Attempt<Outcome<seq<ServerEntry>>>) returns (ex: Exchange)
      ensures ex.calls == [GetServers] && ex.notice == None
      ensures ex.reply.event == GetServersResponse && ex.reply.body.Success()
      ensures ex.reply.body == Servers(
        if servers.Returned? && servers.value.Ok? then servers.value.value
        else FallbackServers(io.clientsCount))
    {
      var body;
      match servers {
        case Returned(Ok(list)) => body := Servers(list);
        case Returned(Err(_)) => body := Servers(FallbackServers(io.clientsCount));
        case Threw => body := Servers(FallbackServers(io.clientsCount));
      }
      ex := Exchange([GetServers], Reply(GetServersResponse, body), None);
    }

    /** `create_character`: authentication first, then the three fields, and
        only then the controller, whose result is relayed as it is. */
    method CreateCharacterEvent(data: Option<CharacterForm>, created: Attempt<Outcome<Character>>)
      returns (ex: Exchange)
      ensures ex.reply.event == CreateCharacterResponse && ex.notice == None
      ensures !Truthy(socket.accountId) ==> ex == Refused(CreateCharacterResponse, NotAuthenticated)
      ensures Truthy(socket.accountId) && data.None? ==> ex == Refused(CreateCharacterResponse, InternalError)
      ensures Truthy(socket.accountId) && data.Some? && !data.value.Complete() ==>
        ex == Refused(CreateCharacterResponse, MissingCharacterFields)
      ensures Truthy(socket.accountId) && data.Some? && data.value.Complete() ==>
        && ex.calls == [CreateCharacter(socket.accountId.value, data.value.name.value, data.value.classe.value, data.value.race.value)]
        && ex.reply.body == if created.Threw? then Failed(InternalError) else RelayedCharacter(created.value)
    {
      if !Truthy(socket.accountId) {
        return Refused(CreateCharacterResponse, NotAuthenticated);
      }
      if data.None? {
        // destructuring an undefined payload throws
        return Refused(CreateCharacterResponse, InternalError);
      }
      var form := data.value;
      if !form.Complete() {
        return Refused(CreateCharacterResponse, MissingCharacterFields);
      }
      var calls := [CreateCharacter(socket.accountId.value, form.name.value, form.classe.value, form.race.value)];
      match created {
        case Returned(result) =>
          ex := Exchange(calls, Reply(CreateCharacterResponse, RelayedCharacter(result)), None);
        case Threw =>
          ex := Exchange(calls, Reply(CreateCharacterResponse, Failed(InternalError)), None);
      }
    }

    /** `get_characters`: authentication first, then the account's list from
        the controller, relayed as it is. */
    method GetCharactersEvent(listed: Attempt<Outcome<seq<Character>>>) returns (ex: Exchange)
      ensures ex.reply.event == GetCharactersResponse && ex.notice == None
      ensures !Truthy(socket.accountId) ==> ex == Refused(GetCharactersResponse, NotAuthenticated)
      ensures Truthy(socket.accountId) ==>
        && ex.calls == [GetCharacters(socket.accountId.value)]
        && ex.reply.body == if listed.Threw? then Failed(InternalError) else RelayedCharacters(listed.value)
    {
      if !Truthy(socket.accountId) {
        return Refused(GetCharactersResponse, NotAuthenticated);
      }
      var calls := [GetCharacters(socket.accountId.value)];
      match listed {
        case Returned(result) =>
          ex := Exchange(calls, Reply(GetCharactersResponse, RelayedCharacters(result)), None);
        case Threw =>
          ex := Exchange(calls, Reply(GetCharactersResponse, Failed(InternalError)), None);
      }
    }

    /** `select_character`: authentication, then the id, then the controller;
        the socket takes the character only when the controller succeeds. */
    method SelectCharacterEvent(data: Option<CharacterRequest>, selected: Attempt<Outcome<Character>>)
      returns (ex: Exchange)
      modifies socket`characterId, socket`character
      ensures ex.reply.event == SelectCharacterResponse && ex.notice == None
      ensures !Truthy(socket.accountId) ==> ex == Refused(SelectCharacterResponse, NotAuthenticated)
      ensures Truthy(socket.accountId) && data.None? ==> ex == Refused(SelectCharacterResponse, InternalError)
      ensures Truthy(socket.accountId) && data.Some? && !Truthy(data.value.characterId) ==>
        ex == Refused(SelectCharacterResponse, MissingCharacterId)
      ensures Truthy(socket.accountId) && data.Some? && Truthy(data.value.characterId) ==>
        && ex.calls == [SelectCharacter(data.value.characterId.value)]
        && ex.reply.body == if selected.Threw? then Failed(InternalError) else RelayedCharacter(selected.value)
      ensures if ex.reply.body.Success()
              then socket.characterId == data.value.characterId && socket.character == Some(selected.value.value)
              else unchanged(socket)
    {
      if !Truthy(socket.accountId) {
        return Refused(SelectCharacterResponse, NotAuthenticated);
      }
      if data.None? {
        return Refused(SelectCharacterResponse, InternalError);
      }
      var characterId := data.value.characterId;
      if !Truthy(characterId) {
        return Refused(SelectCharacterResponse, MissingCharacterId);
      }
      var calls := [SelectCharacter(characterId.value)];
      match selected {
        case Returned(result) =>
          if result.Ok? {
            socket.characterId := characterId;
            socket.character := Some(result.value);
          }
          ex := Exchange(calls, Reply(SelectCharacterResponse, RelayedCharacter(result)), None);
        case Threw =>
          ex := Exchange(calls, Reply(SelectCharacterResponse, Failed(InternalError)), None);
      }
    }

    /** The loop of `enter_world` over the sockets fetched from `room`: every
        other socket with a character contributes its public fields. */
    method CollectNearbyPlayers(room: RoomId) returns (nearby: seq<PlayerInfo>)
      requires Valid()
      ensures forall id :: id in io.Members(room) ==> id in io.sockets
      ensures nearby == NearbyPlayers(io.PeersOf(io.Members(room)), socket.id)
    {
      var ids := io.Members(room);
      ghost var peers := io.PeersOf(ids);
      nearby := [];
      var i := 0;
      while i < |ids|
        invariant 0 <= i <= |ids|
        invariant nearby == NearbyPlayers(peers[..i], socket.id)
      {
        var roomSocket := io.sockets[ids[i]];
        assert peers[i] == Peer(roomSocket.id, roomSocket.character);
        if roomSocket.id != socket.id && roomSocket.character.Some? {
          nearby := nearby + [PublicFields(roomSocket.character.value)];
        }
        assert peers[..i + 1][..i] == peers[..i];
        i := i + 1;
      }
      assert peers[..i] == peers;
    }

    /** The session state `enter_world` sets before reading the room: the
        socket takes the character and joins the character's map room. */
    method TakeCharacter(characterId: nat, c: Character)
      requires Valid()
      modifies socket`characterId, socket`character, io`rooms
      ensures Valid()
      ensures socket.characterId == Some(characterId) && socket.character == Some(c)
      ensures socket.id in io.Members(c.mapName)
      ensures io.Members(c.mapName) == if socket.id in old(io.Members(c.mapName))
        then old(io.Members(c.mapName)) else old(io.Members(c.mapName)) + [socket.id]
      ensures forall r :: r != c.mapName ==> io.Members(r) == old(io.Members(r))
    {
      socket.characterId := Some(characterId);
      socket.character := Some(c);
      io.Join(socket, c.mapName);
    }

    /** The success branch of `enter_world` for the character `c` found
        under `characterId`: the socket takes the character and joins the
        character's map room (without leaving any room it was in), the room
        is read for the nearby players, the monsters are looked up, and the
        spawn info goes to the socket before the room's other members are
        told that it joined. */
    method JoinWorld(characterId: nat, c: Character, monsters: Attempt<seq<Monster>>)
      returns (ex: Exchange)
      requires Valid()
      modifies socket`characterId, socket`character, io`rooms
      ensures Valid()
      ensures socket.characterId == Some(characterId) && socket.character == Some(c)
      ensures socket.id in io.Members(c.mapName)
      ensures io.Members(c.mapName) == if socket.id in old(io.Members(c.mapName))
        then old(io.Members(c.mapName)) else old(io.Members(c.mapName)) + [socket.id]
      ensures forall r :: r != c.mapName ==> io.Members(r) == old(io.Members(r))
      ensures forall id :: id in io.Members(c.mapName) ==> id in io.sockets
      ensures ex.calls == [FindMonsters(c.mapName)] && ex.reply.event == EnterWorldResponse
      ensures monsters.Threw? ==> ex.reply.body == Failed(InternalError) && ex.notice == None
      ensures monsters.Returned? ==>
        && ex.reply.body == Entered(c, SpawnFor(c,
             NearbyPlayers(io.PeersOf(io.Members(c.mapName)), socket.id), monsters.value))
        && ex.notice == Some(PlayerJoined(c.mapName, io.RoomExcept(c.mapName, socket.id), PublicFields(c)))
    {
      TakeCharacter(characterId, c);
      var nearby := CollectNearbyPlayers(c.mapName);
      var calls := [FindMonsters(c.mapName)];
      if monsters.Threw? {
        return Exchange(calls, Reply(EnterWorldResponse, Failed(InternalError)), None);
      }
      ex := Exchange(calls,
        Reply(EnterWorldResponse, Entered(c, SpawnFor(c, nearby, monsters.value))),
        Some(PlayerJoined(c.mapName, io.RoomExcept(c.mapName, socket.id), PublicFields(c))));
    }

    /** `enter_world`: authentication, then the id, then the player lookup,
        whose failure is replied without joining any room; on success see
        JoinWorld. */
    method EnterWorldEvent(data: Option<CharacterRequest>, player: Attempt<Outcome<Character>>,
                           monsters: Attempt<seq<Monster>>) returns (ex: Exchange)
      requires Valid()
      modifies socket`characterId, socket`character, io`rooms
      ensures Valid()
      ensures ex.reply.event == EnterWorldResponse
      // a guard stops the request: one failure reply, nothing else happens
      ensures !Truthy(socket.accountId) ==>
        ex == Refused(EnterWorldResponse, NotAuthenticated) && unchanged(socket) && unchanged(io)
      ensures Truthy(socket.accountId) && data.None? ==>
        ex == Refused(EnterWorldResponse, InternalError) && unchanged(socket) && unchanged(io)
      ensures Truthy(socket.accountId) && data.Some? && !Truthy(data.value.characterId) ==>
        ex == Refused(EnterWorldResponse, MissingCharacterId) && unchanged(socket) && unchanged(io)
      // the player lookup throws or fails: its error is replied, no room is joined
      ensures Truthy(socket.accountId) && data.Some? && Truthy(data.value.characterId)
              && !(player.Returned? && player.value.Ok?) ==>
        && ex.calls == [GetPlayer(data.value.characterId.value)]
        && ex.reply.body == (if player.Threw? then Failed(InternalError) else Failed(player.value.error))
        && ex.notice == None
        && unchanged(socket) && unchanged(io)
      // the player lookup succeeds
      ensures Truthy(socket.accountId) && data.Some? && Truthy(data.value.characterId)
              && player.Returned? && player.value.Ok? ==>
        var c := player.value.value;
        && socket.characterId == data.value.characterId && socket.character == Some(c)
        && socket.id in io.Members(c.mapName)
        && io.Members(c.mapName) == (if socket.id in old(io.Members(c.mapName))
             then old(io.Members(c.mapName)) else old(io.Members(c.mapName)) + [socket.id])
        && (forall r :: r != c.mapName ==> io.Members(r) == old(io.Members(r)))
        && (forall id :: id in io.Members(c.mapName) ==> id in io.sockets)
        && ex.calls == [GetPlayer(data.value.characterId.value), FindMonsters(c.mapName)]
        && (monsters.Threw? ==> ex.reply.body == Failed(InternalError) && ex.notice == None)
        && (monsters.Returned? ==>
              && ex.reply.body == Entered(c, SpawnFor(c,
                   NearbyPlayers(io.PeersOf(io.Members(c.mapName)), socket.id), monsters.value))
              && ex.notice == Some(PlayerJoined(c.mapName, io.RoomExcept(c.mapName, socket.id), PublicFields(c))))
    {
      if !Truthy(socket.accountId) {
        return Refused(EnterWorldResponse, NotAuthenticated);
      }
      if data.None? {
        return Refused(EnterWorldResponse, InternalError);
      }
      var characterId := data.value.characterId;
      if !Truthy(characterId) {
        return Refused(EnterWorldResponse, MissingCharacterId);
      }
      var lookup := GetPlayer(characterId.value);
      if player.Threw? {
        return Exchange([lookup], Reply(EnterWorldResponse, Failed(InternalError)), None);
      }
      var result := player.value;
      if result.Err? {
        return Exchange([lookup], Reply(EnterWorldResponse, Failed(result.error)), None);
      }
      ex := JoinWorld(characterId.value, result.value, monsters);
      ex := ex.(calls := [lookup] + ex.calls);
    }
  }
}
