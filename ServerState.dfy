/**
 * The session coordinator of server.js, as values: the `rooms` Map (with the
 * insertion order in which `for ... of rooms.entries()` visits it), the
 * `waitingPlayers` queue, the tracked connections with their `isAlive` flags,
 * and an outbox to which every `send` appends (recipient, message).
 *
 * Each handler is a pure transition here; module Server holds the class that
 * performs them in place. Connections are opaque ids.
 */
module ServerState {
  import opened Wrappers
  import Board

  type ConnId = nat
  type RoomCode = string

  /**
   * A room's `gameState`: a JavaScript array, kept as its elements (index to
   * value). `Array(9).fill('')` has the elements 0..8; assigning at an array
   * index adds or overwrites one element. Unlike the client's nine-cell
   * `Board.Cells`, the server writes any index a message carries, unchecked,
   * so its board can grow beyond nine elements.
   */
  type Cells = map<nat, string>

  const Empty: string := ""

  /** The largest array index JavaScript allows: 2^32 - 2. */
  const MaxArrayIndex: nat := 0xFFFF_FFFE

  /** `Array(9).fill('')`. */
  function EmptyBoard(): (b: Cells)
    ensures forall i: nat :: i in b <==> i < 9
    ensures forall i :: i in b ==> b[i] == Empty
  {
    map[0 := Empty, 1 := Empty, 2 := Empty, 3 := Empty, 4 := Empty, 5 := Empty, 6 := Empty, 7 := Empty, 8 := Empty]
  }

  /** `gameState[index] = player`: an element when `index` is an array index, otherwise a plain property that no element-wise operation sees. */
  function WriteCell(board: Cells, index: int, player: string): Cells
  {
    if 0 <= index <= MaxArrayIndex then board[index := player] else board
  }

  /** The elements that `filter(cell => cell !== '')` keeps. */
  function Occupied(board: Cells): set<nat>
  {
    set i | i in board && board[i] != Empty
  }

  datatype Room = Room(players: seq<ConnId>, gameState: Cells)

  /** The messages the server sends, one constructor per `type`, plus the transport ping. */
  datatype Message =
    | RoomCreated(room: RoomCode)
    | RoomJoined(room: RoomCode)
    | PlayerJoined(message: string)
    | PlayerLeft(message: string)
    | MoveMade(index: int, player: string, isFirstMove: bool)
    | GameState(state: Cells)
    | WaitingForMatch
    | QuickMatchFound(room: RoomCode, symbol: string)
    | Ping

  datatype Envelope = Envelope(to: ConnId, msg: Message)

  const PlayerJoinedText: string := "Player O has joined the game!"

  /** The `player_left` text; the symbol is X exactly when the leaver's index was 0. */
  function PlayerLeftText(playerIndex: int): string
  {
    "Player " + (if playerIndex == 0 then Board.X else Board.O) + " has left the game"
  }

  datatype State = State(
    rooms: map<RoomCode, Room>,
    order: seq<RoomCode>,
    waiting: seq<ConnId>,
    clients: seq<ConnId>,
    isAlive: map<ConnId, bool>,
    outbox: seq<Envelope>)

  /** The server at start-up: no rooms, nobody waiting, no connections. */
  const Initial: State := State(map[], [], [], [], map[], [])

  // ---------------------------------------------------------------------------
  // Sequence helpers: indexOf, splice, filtering
  // ---------------------------------------------------------------------------

  predicate Distinct<T(==)>(s: seq<T>)
  {
    forall i, j :: 0 <= i < j < |s| ==> s[i] != s[j]
  }

  /** `Array.prototype.indexOf`: the first index holding `x`, or -1. */
  function IndexOf<T(==)>(s: seq<T>, x: T): (r: int)
    ensures r == -1 <==> x !in s
    ensures r != -1 ==> 0 <= r < |s| && s[r] == x && x !in s[..r]
  {
    if s == [] then -1
    else if s[0] == x then 0
    else
      var k := IndexOf(s[1..], x);
      assert s[1..][..if k == -1 then 0 else k] == s[1..if k == -1 then 1 else k + 1];
      if k == -1 then -1 else k + 1
  }

  /** `s.splice(start, 1)` as the sequence it leaves: a negative start counts from the end. */
  function Splice1<T>(s: seq<T>, start: int): (r: seq<T>)
  {
    var at := if start < 0 then (if |s| + start < 0 then 0 else |s| + start) else start;
    if at < |s| then s[..at] + s[at + 1..] else s
  }

  /** `splice(indexOf(x), 1)`: for a member, its first occurrence goes; for a non-member, the last element goes. */
  lemma SpliceIndexOf<T>(s: seq<T>, x: T)
    ensures x in s ==> Splice1(s, IndexOf(s, x)) == s[..IndexOf(s, x)] + s[IndexOf(s, x) + 1..]
    ensures x !in s && s != [] ==> Splice1(s, IndexOf(s, x)) == s[..|s| - 1]
    ensures x !in s && s == [] ==> Splice1(s, IndexOf(s, x)) == []
    ensures |Splice1(s, IndexOf(s, x))| == if s == [] then 0 else |s| - 1
  {
  }

  /** `s` without any occurrence of `x`. */
  function RemoveValue<T(==, !new)>(s: seq<T>, x: T): (r: seq<T>)
    ensures forall y :: y in r <==> y in s && y != x
    ensures Distinct(s) ==> Distinct(r)
    ensures |r| <= |s|
  {
    if s == [] then []
    else
      var rest := RemoveValue(s[1..], x);
      assert Distinct(s) ==> s[0] !in s[1..] && Distinct(s[1..]);
      (if s[0] == x then [] else [s[0]]) + rest
  }

  /** The members of `players` other than `sender`, in order: the recipients of a relayed move. */
  function Others(players: seq<ConnId>, sender: ConnId): (r: seq<ConnId>)
    ensures forall p :: p in r <==> p in players && p != sender
    ensures |r| <= |players|
  {
    if players == [] then []
    else
      var last := players[|players| - 1];
      Others(players[..|players| - 1], sender) + (if last != sender then [last] else [])
  }

  /** The indices of the players other than `sender`, ascending: which players a relay visits, and in what order. */
  ghost function KeptIndices(players: seq<ConnId>, sender: ConnId): (idx: seq<nat>)
    ensures forall k :: 0 <= k < |idx| ==> idx[k] < |players| && players[idx[k]] != sender
    ensures forall k, l :: 0 <= k < l < |idx| ==> idx[k] < idx[l]
    ensures forall j :: 0 <= j < |players| && players[j] != sender ==> j in idx
  {
    if players == [] then []
    else
      var n := |players| - 1;
      KeptIndices(players[..n], sender) + (if players[n] != sender then [n] else [])
  }

  /** `Others` lists the players at exactly those indices, each once, in ascending order. */
  lemma {:induction false} OthersInOrder(players: seq<ConnId>, sender: ConnId)
    ensures |Others(players, sender)| == |KeptIndices(players, sender)|
    ensures forall k :: 0 <= k < |Others(players, sender)| ==>
      Others(players, sender)[k] == players[KeptIndices(players, sender)[k]]
  {
    if players != [] {
      var n := |players| - 1;
      OthersInOrder(players[..n], sender);
    }
  }

  /** One `send(msg)` to each recipient, in order. */
  function Notify(recipients: seq<ConnId>, msg: Message): (r: seq<Envelope>)
    ensures |r| == |recipients|
    ensures forall k :: 0 <= k < |r| ==> r[k] == Envelope(recipients[k], msg)
  {
    seq(|recipients|, k requires 0 <= k < |recipients| => Envelope(recipients[k], msg))
  }

  lemma NotifyAppend(recipients: seq<ConnId>, p: ConnId, msg: Message)
    ensures Notify(recipients + [p], msg) == Notify(recipients, msg) + [Envelope(p, msg)]
  {
  }

  // ---------------------------------------------------------------------------
  // The state invariant
  // ---------------------------------------------------------------------------

  /**
   * `order` lists each room code once; no room has more than two players; at
   * most one connection waits (the queue is pushed only when empty); each
   * tracked connection is listed once and has its flag.
   */
  ghost predicate Inv(s: State)
  {
    && Distinct(s.order)
    && (forall c :: c in s.order <==> c in s.rooms)
    && (forall c :: c in s.rooms ==> |s.rooms[c].players| <= 2)
    && |s.waiting| <= 1
    && Distinct(s.clients)
    && (forall c :: c in s.clients <==> c in s.isAlive)
  }

  // ---------------------------------------------------------------------------
  // Handlers
  // ---------------------------------------------------------------------------

  /** `rooms.set(code, room)`: a new code goes to the end of the iteration order, an existing one keeps its place and loses its old room. */
  function SetRoom(s: State, code: RoomCode, room: Room): State
  {
    s.(rooms := s.rooms[code := room], order := if code in s.rooms then s.order else s.order + [code])
  }

  /** `handleCreateRoom`, with `code` the generated room code. */
  function CreateRoom(s: State, ws: ConnId, code: RoomCode): State
  {
    SetRoom(s, code, Room([ws], EmptyBoard())).(outbox := s.outbox + [Envelope(ws, RoomCreated(code))])
  }

  /** `handleJoinRoom`: only an existing room with fewer than two players takes the joiner. */
  function JoinRoom(s: State, ws: ConnId, code: RoomCode): State
  {
    if code in s.rooms && |s.rooms[code].players| < 2 then
      var room := s.rooms[code];
      var players := room.players + [ws];
      s.(rooms := s.rooms[code := room.(players := players)],
         outbox := s.outbox + [Envelope(ws, RoomJoined(code)), Envelope(players[0], PlayerJoined(PlayerJoinedText))])
    else s
  }

  /** `handleLeaveRoom`: splice the leaver's index out (the last player when it is no member) and tell the new first player. */
  function LeaveRoom(s: State, ws: ConnId, code: RoomCode): State
  {
    if code !in s.rooms then s
    else
      var room := s.rooms[code];
      var playerIndex := IndexOf(room.players, ws);
      var players := Splice1(room.players, playerIndex);
      s.(rooms := s.rooms[code := room.(players := players)],
         outbox := s.outbox + if |players| > 0 then [Envelope(players[0], PlayerLeft(PlayerLeftText(playerIndex)))] else [])
  }

  /** `handleMove`: write the cell unchecked and relay the move to every other player. */
  function Move(s: State, ws: ConnId, code: RoomCode, index: int, player: string): State
  {
    if code !in s.rooms then s
    else
      var room := s.rooms[code];
      var board := WriteCell(room.gameState, index, player);
      var isFirstMove := |Occupied(board)| == 1;
      s.(rooms := s.rooms[code := room.(gameState := board)],
         outbox := s.outbox + Notify(Others(room.players, ws), MoveMade(index, player, isFirstMove)))
  }

  /** `handleRestart`: a fresh board, sent to every player. */
  function Restart(s: State, code: RoomCode): State
  {
    if code !in s.rooms then s
    else
      var room := s.rooms[code];
      s.(rooms := s.rooms[code := room.(gameState := EmptyBoard())],
         outbox := s.outbox + Notify(room.players, GameState(EmptyBoard())))
  }

  /** `cleanupRoom`: delete the room only when nobody is left in it. */
  function CleanupRoom(s: State, code: RoomCode): State
  {
    if code in s.rooms && |s.rooms[code].players| == 0 then
      s.(rooms := s.rooms - {code}, order := RemoveValue(s.order, code))
    else s
  }

  /** `handleQuickPlay`: pair with the head of the queue, or wait. */
  function QuickPlay(s: State, ws: ConnId, code: RoomCode): State
  {
    if |s.waiting| > 0 then
      var opponent := s.waiting[0];
      SetRoom(s, code, Room([opponent, ws], EmptyBoard())).(
        waiting := s.waiting[1..],
        outbox := s.outbox + [Envelope(opponent, QuickMatchFound(code, Board.X)), Envelope(ws, QuickMatchFound(code, Board.O))])
    else
      s.(waiting := s.waiting + [ws], outbox := s.outbox + [Envelope(ws, WaitingForMatch)])
  }

  /** The first room, in iteration order, whose players include `ws`. */
  function FirstRoomWith(order: seq<RoomCode>, rooms: map<RoomCode, Room>, ws: ConnId): (r: Option<RoomCode>)
    ensures r.Some? ==> r.value in order && r.value in rooms && ws in rooms[r.value].players
    ensures r.Some? ==> forall j :: 0 <= j < IndexOf(order, r.value) && order[j] in rooms ==> ws !in rooms[order[j]].players
    ensures r.None? ==> forall c :: c in order && c in rooms ==> ws !in rooms[c].players
  {
    if order == [] then None
    else if order[0] in rooms && ws in rooms[order[0]].players then Some(order[0])
    else
      FirstRoomWith(order[1..], rooms, ws)
  }

  /** The first step of the `close` handler: leave the quick-play queue if queued. */
  function LeaveQueue(s: State, ws: ConnId): State
  {
    var waitingIndex := IndexOf(s.waiting, ws);
    s.(waiting := if waitingIndex != -1 then Splice1(s.waiting, waitingIndex) else s.waiting)
  }

  /** The second step: leave the first room it is in, deleting that room if it is now empty. */
  function LeaveFirstRoom(s: State, ws: ConnId): State
  {
    match FirstRoomWith(s.order, s.rooms, ws)
    case Some(code) => CleanupRoom(LeaveRoom(s, ws, code), code)
    case None => s
  }

  /** The last step, done by the WebSocket server itself: the connection is no longer tracked. */
  function Untrack(s: State, ws: ConnId): State
  {
    s.(clients := RemoveValue(s.clients, ws), isAlive := s.isAlive - {ws})
  }

  /** The `close` handler: out of the queue, out of the first room it is in, and no longer tracked. */
  function Close(s: State, ws: ConnId): State
  {
    Untrack(LeaveFirstRoom(LeaveQueue(s, ws), ws), ws)
  }

  /** A new connection is tracked with its flag set. */
  function Connect(s: State, ws: ConnId): State
  {
    s.(clients := s.clients + [ws], isAlive := s.isAlive[ws := true])
  }

  /** The `pong` handler. */
  function Pong(s: State, ws: ConnId): State
    requires ws in s.isAlive
  {
    s.(isAlive := s.isAlive[ws := true])
  }

  /** The tracked connections whose flag is false, in order: the ones a sweep terminates. */
  function Dead(clients: seq<ConnId>, isAlive: map<ConnId, bool>): (r: seq<ConnId>)
    requires forall c :: c in clients ==> c in isAlive
    ensures |r| <= |clients|
  {
    if clients == [] then []
    else
      var last := clients[|clients| - 1];
      Dead(clients[..|clients| - 1], isAlive) + (if !isAlive[last] then [last] else [])
  }

  /** The tracked connections whose flag is true, in order: the ones a sweep pings. */
  function Live(clients: seq<ConnId>, isAlive: map<ConnId, bool>): (r: seq<ConnId>)
    requires forall c :: c in clients ==> c in isAlive
    ensures |r| <= |clients|
  {
    if clients == [] then []
    else
      var last := clients[|clients| - 1];
      Live(clients[..|clients| - 1], isAlive) + (if isAlive[last] then [last] else [])
  }

  /** `Dead` lists exactly the tracked connections whose flag is false. */
  lemma {:induction false} DeadMembers(clients: seq<ConnId>, isAlive: map<ConnId, bool>)
    requires forall c :: c in clients ==> c in isAlive
    ensures forall c :: c in Dead(clients, isAlive) <==> c in clients && !isAlive[c]
  {
    if clients != [] {
      var init := clients[..|clients| - 1];
      DeadMembers(init, isAlive);
      assert clients == init + [clients[|clients| - 1]];
    }
  }

  /** `Live` lists exactly the tracked connections whose flag is true. */
  lemma {:induction false} LiveMembers(clients: seq<ConnId>, isAlive: map<ConnId, bool>)
    requires forall c :: c in clients ==> c in isAlive
    ensures forall c :: c in Live(clients, isAlive) <==> c in clients && isAlive[c]
  {
    if clients != [] {
      var init := clients[..|clients| - 1];
      LiveMembers(init, isAlive);
      assert clients == init + [clients[|clients| - 1]];
    }
  }

  /**
   * One run of the 30-second liveness interval: connections whose flag is
   * false are terminated (returned; their close handlers run afterwards), every
   * other one has its flag cleared and is pinged.
   */
  function Sweep(s: State): (State, seq<ConnId>)
    requires forall c :: c in s.clients ==> c in s.isAlive
  {
    var terminated := Dead(s.clients, s.isAlive);
    (s.(isAlive := map c | c in s.isAlive :: false,
        outbox := s.outbox + Notify(Live(s.clients, s.isAlive), Ping)),
     terminated)
  }

  // ---------------------------------------------------------------------------
  // Dispatch of incoming messages and of the close event
  // ---------------------------------------------------------------------------

  /**
   * The six message types the dispatch handles, the close event, and the
   * events of the WebSocket server itself: a new connection, a pong, and a
   * tick of the liveness interval. Room codes the server generates are
   * parameters.
   */
  datatype Event =
    | CreateRoomMsg(ws: ConnId, newCode: RoomCode)
    | JoinRoomMsg(ws: ConnId, room: RoomCode)
    | MoveMsg(ws: ConnId, room: RoomCode, index: int, player: string)
    | RestartMsg(room: RoomCode)
    | LeaveRoomMsg(ws: ConnId, room: RoomCode)
    | QuickPlayMsg(ws: ConnId, newCode: RoomCode)
    | Closed(ws: ConnId)
    | Connected(ws: ConnId)
    | PongFrom(ws: ConnId)
    | Tick

  function Dispatch(s: State, e: Event): State
  {
    match e
    case CreateRoomMsg(ws, code) => CreateRoom(s, ws, code)
    case JoinRoomMsg(ws, code) => JoinRoom(s, ws, code)
    case MoveMsg(ws, code, index, player) => Move(s, ws, code, index, player)
    case RestartMsg(code) => Restart(s, code)
    case LeaveRoomMsg(ws, code) => LeaveRoom(s, ws, code)
    case QuickPlayMsg(ws, code) => QuickPlay(s, ws, code)
    case Closed(ws) => Close(s, ws)
    // A new connection is a new socket, and only a tracked socket can answer a ping.
    case Connected(ws) => if ws in s.isAlive then s else Connect(s, ws)
    case PongFrom(ws) => if ws in s.isAlive then Pong(s, ws) else s
    case Tick => if forall c :: c in s.clients ==> c in s.isAlive then Sweep(s).0 else s
  }

  /** The events handled one after another (each handler runs to completion). */
  function Run(s: State, events: seq<Event>): State
    decreases |events|
  {
    if events == [] then s else Run(Dispatch(s, events[0]), events[1..])
  }
}
