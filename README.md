# Presence and status monitor of a multiplayer game server

This project models, in Dafny, two pieces of the game server's real-time
layer:

- the socket event handlers for one connection (`get_servers`,
  `create_character`, `get_characters`, `select_character`, `enter_world`)
  with the fallback server list, the guard ladder every handler follows
  (authentication, then required fields, then the controller's answer), the
  session state a socket takes on success, and the presence logic of
  `enter_world`: joining the character's map room, building the nearby
  players from the room's other sockets, the spawn info, and the
  `player_joined` notice to the rest of the room;
- the `ServerManager` status monitor: a small state machine over
  `isRunning`, `updateInterval` and `setupComplete` that publishes the
  player count when started and on every timer tick, sets up its connection
  listeners at most once, and can be stopped and restarted.

Files:

- `wrappers.dfy` — `Option` and `NoDuplicates`.
- `sockets.dfy` — the socket.io state the handlers touch: `Socket`
  (accountId, characterId, character) and `Io` (socket table, room index
  kept as insertion-ordered sequences without duplicates, client count),
  with `Join` and the fetched view `PeersOf`.
- `character_events.dfy` — the fallback list, the nearby-players filter and
  its properties, and the class `Handlers`, one method per event. A handler
  returns an `Exchange`: the controller calls it awaited, in order, the one
  reply it emitted to its socket, and the `player_joined` notice if any.
  Because every path must produce the `Exchange`, every event has exactly
  one reply.
- `server_manager.dfy` — the class `ServerManager`, with ghost counters for
  listener setups and live timers.

Modelling choices:

- JavaScript falsiness is explicit: an id of `0` or `undefined` is missing
  (`Truthy`), a string that is `""` or `undefined` is missing (`Given`).
- An undefined request payload is `None`; destructuring it throws, which the
  handlers turn into "Erro interno do servidor".
- The controllers and the monster lookup are inputs: `Attempt<Outcome<T>>`
  says whether the awaited call returned `{success, ...}` or threw.
- A `ServerManager` whose `io` is `null` stands for a server object that
  cannot be read: counting and listing then take their `catch` paths, and
  every `start` that finds the monitor stopped and its listeners never set
  up throws inside the listener setup, after marking the monitor running.
- The audience of `socket.to(room).emit(...)` is the set of the room's
  members other than the sender (`Io.RoomExcept`); the notice records it.
- Entering a map room never removes the socket from a room it joined
  before, so a socket can be a member of several map rooms, and nothing
  emits `player_left`.
- The authentication failure text is "Não autenticado".
- `get_characters` and `select_character` relay the controller's result
  object as it came rather than building a reply of their own.

## Model

| member | source | states |
|---|---|---|
| `CharacterEvents.FallbackServers` | server/src/sockets/characterEvents.js:7-13 | exactly three entries with ids 1, 2, 3; entries 1 and 2 online, entry 3 in maintenance with 0 players; entry 1 carries the live client count, entry 2 a count between 0 and entry 1's; all have 1000 slots |
| `CharacterEvents.Handlers.constructor` | server/src/sockets/characterEvents.js:15 | the handlers are bound to a consistent server and to a socket registered in it under its own id |
| `CharacterEvents.Handlers.GetServersEvent` | server/src/sockets/characterEvents.js:17-39 | one controller call and one reply, always successful; the controller's list when it reports success, the fallback list for the live client count when it reports failure or throws |
| `CharacterEvents.Handlers.CreateCharacterEvent` | server/src/sockets/characterEvents.js:42-71 | unauthenticated: "Não autenticado" and no call; undefined payload: internal error and no call; a missing name, class or race: the validation error and no call; otherwise one creation call with the account and the three fields, whose result is relayed, or the internal error when it throws |
| `CharacterEvents.Handlers.GetCharactersEvent` | server/src/sockets/characterEvents.js:74-92 | unauthenticated: "Não autenticado" and no call; otherwise one listing call for the socket's account, relayed, or the internal error when it throws |
| `CharacterEvents.Handlers.SelectCharacterEvent` | server/src/sockets/characterEvents.js:95-128 | the same guard ladder with "ID do personagem é obrigatório"; the controller's result is relayed; the socket takes the id and the character exactly when the reply is a success and is untouched otherwise |
| `CharacterEvents.Handlers.TakeCharacter` | server/src/sockets/characterEvents.js:153-158 | the socket holds the id and the character and is a member of the character's map room, added at the end if it was not there; every other room keeps its members |
| `CharacterEvents.Handlers.CollectNearbyPlayers` | server/src/sockets/characterEvents.js:161-177 | the loop over the fetched room sockets yields exactly `NearbyPlayers` of the room's members as the server sees them |
| `CharacterEvents.Handlers.JoinWorld` | server/src/sockets/characterEvents.js:152-206 | the joined room holds its old members plus the socket at the end if it was absent, and every other room is unchanged; after the join and the room read, one monster lookup; the reply carries the character and a spawn info built from the character and the room's nearby players, and the notice goes to every member of the room but the sender with the character's public fields; a throwing monster lookup gives the internal error and no notice |
| `CharacterEvents.Handlers.EnterWorldEvent` | server/src/sockets/characterEvents.js:131-223 | the guard ladder replies and changes nothing; a failed or throwing player lookup is replied (its own error or the internal error) and joins no room; a successful one leaves the character's room with its old members plus the socket at the end if absent, every other room unchanged, and does what `JoinWorld` states, with the player lookup as the first call |
| `CharacterEvents.VisiblePeers` | server/src/sockets/characterEvents.js:164-165 | a fetched socket is kept exactly when it is not the joining socket and has a character |
| `CharacterEvents.VisiblePeersDistinct` | server/src/sockets/characterEvents.js:164-177 | filtering sockets with distinct ids keeps them distinct, so no socket is listed twice |
| `CharacterEvents.NearbyPlayersProjects` | server/src/sockets/characterEvents.js:166-175 | the nearby players are the kept sockets' public fields, position by position |
| `CharacterEvents.NearbyPlayersExact` | server/src/sockets/characterEvents.js:161-177 | an entry is present exactly when it is the public view of another socket with a character, and there are as many entries as such sockets |
| `CharacterEvents.NearbyPlayersOfRoom` | server/src/sockets/characterEvents.js:158-177 | in a consistent server, the nearby players of a room are exactly the public fields of the other sockets in the room that have a character, one entry per socket; the joining socket contributes nothing |
| `CharacterEvents.PublicFields` | server/src/sockets/characterEvents.js:166-175 | the entry shows the character's id, name, class, race, level and position, and it is the only entry that does |
| `CharacterEvents.SpawnFor` | server/src/sockets/characterEvents.js:186-193 | the spawn position is the position the public fields (and so the `player_joined` notice) give, the map is the character's, and the nearby players and monsters are passed through |
| `Sockets.Io.Join` | server/src/sockets/characterEvents.js:158 | the socket is a member of the room afterwards, added once, and no other room changes |
| `Sockets.Io.PeersOf` | server/src/sockets/characterEvents.js:162 | the fetched sockets are the room's members in order, each seen with its current character |
| `ServerManagement.ServerManager.constructor` | server/src/utils/serverManager.js:5-11 | not running, no interval, listeners not set up, the given server id (1 by default), nothing published |
| `ServerManagement.ServerManager.Start` | server/src/utils/serverManager.js:14-36 | when running, nothing changes; otherwise running, listeners set up once in the monitor's life, one new live timer held as the interval, and exactly one status write of the current count; with an unreadable server, a start that finds the monitor stopped and never set up throws after marking it running, with no timer and no write, and does so again after a stop |
| `ServerManagement.ServerManager.Stop` | server/src/utils/serverManager.js:39-51 | when not running, nothing changes; afterwards not running, no interval, no live timer |
| `ServerManagement.ServerManager.Tick` | server/src/utils/serverManager.js:30-32 | a firing of the live timer issues one more status write |
| `ServerManagement.ServerManager.Run` | server/src/utils/serverManager.js:14-51 | over any sequence of starts, stops and timer firings the listeners are set up at most once, at most one timer is live, and published writes are never lost |
| `ServerManagement.ServerManager.UpdateServerStatus` | server/src/utils/serverManager.js:73-82 | one write of the current player count under "online" for this server id; a failed write is swallowed |
| `ServerManagement.ServerManager.PlayerCount` | server/src/utils/serverManager.js:85-94 | the number of sockets in the default namespace; 0 for an unreadable server, never a failure |
| `ServerManagement.ServerManager.IsActive` | server/src/utils/serverManager.js:97-99 | true exactly while the monitor is running; with a readable server that is exactly while it holds its one live timer, and a held timer always means active with listeners set up |
| `ServerManagement.ServerManager.ListConnectedSockets` | server/src/utils/serverManager.js:102-111 | every connected socket id once and nothing else, as many as the player count; none for an unreadable server |

## Left out

- Transport: `emit`, `to(...).emit` and `fetchSockets` are not executed; their effect is the returned `Exchange`. The one-element array each reply is wrapped in is not represented.
- The controllers (`CharacterController`, `PlayerController`, `ServerController`) and `Monster.findByMap` are not part of this model; their results are inputs, and the fields of their records other than those the handlers read are dropped.
- Interleaving at `await`: each event runs to completion as one step. Other events that could run between the room join and the room read are not modelled.
- Authentication: `accountId` is whatever the earlier step bound; the step itself is not part of this model.
- Connection and disconnection of sockets, and the listeners `setupSocketListeners` installs, which only log: the model keeps only how often they were set up. There is no `player_left` and no leaving of a previous map room, because the code has neither.
- Timers: the 30000 ms period and time itself are not modelled; a timer is a handle and a ghost count of live timers, and a firing is the `Tick` method.
- Logging and `console.log`.
- FallbackServers: `Math.floor(clientsCount * 0.7)` is floating-point; the model computes `clientsCount * 7 / 10` and promises only that the value lies between 0 and the client count.
- ListConnectedSockets: the result is in no particular order, whereas the source lists the ids in the order the sockets connected; the socket table is a map here.
- Request payload fields of the wrong JavaScript type (a string id, a number name) are outside the model: ids are natural numbers and names are strings.
