/**
 * What the handlers of server.js guarantee, proved about the transitions of
 * module ServerState.
 */
module ServerProperties {
  import opened Wrappers
  import opened ServerState
  import Board

  /** Two states that hold the same rooms under every code other than `code`. */
  ghost predicate OtherRoomsUnchanged(s: State, t: State, code: RoomCode)
  {
    forall c :: c != code ==> (c in t.rooms <==> c in s.rooms) && (c in s.rooms ==> t.rooms[c] == s.rooms[c])
  }

  // ---------------------------------------------------------------------------
  // The invariant
  // ---------------------------------------------------------------------------

  lemma SetRoomPreservesInv(s: State, code: RoomCode, room: Room)
    requires Inv(s) && |room.players| <= 2
    ensures Inv(SetRoom(s, code, room))
  {
  }

  lemma QuickPlayPreservesInv(s: State, ws: ConnId, code: RoomCode)
    requires Inv(s)
    ensures Inv(QuickPlay(s, ws, code))
    ensures |QuickPlay(s, ws, code).waiting| <= 1
    ensures |s.waiting| > 0 ==> code in QuickPlay(s, ws, code).rooms && |QuickPlay(s, ws, code).rooms[code].players| == 2
  {
    if |s.waiting| > 0 {
      SetRoomPreservesInv(s, code, Room([s.waiting[0], ws], EmptyBoard()));
    }
  }

  lemma LeaveRoomPreservesInv(s: State, ws: ConnId, code: RoomCode)
    requires Inv(s)
    ensures Inv(LeaveRoom(s, ws, code))
  {
    if code in s.rooms {
      SpliceIndexOf(s.rooms[code].players, ws);
    }
  }

  lemma CleanupRoomPreservesInv(s: State, code: RoomCode)
    requires Inv(s)
    ensures Inv(CleanupRoom(s, code))
  {
  }

  lemma ClosePreservesInv(s: State, ws: ConnId)
    requires Inv(s)
    ensures Inv(Close(s, ws))
  {
    LeaveQueuePreservesInv(s, ws);
    LeaveFirstRoomPreservesInv(LeaveQueue(s, ws), ws);
  }

  lemma LeaveQueuePreservesInv(s: State, ws: ConnId)
    requires Inv(s)
    ensures Inv(LeaveQueue(s, ws))
  {
    SpliceIndexOf(s.waiting, ws);
  }

  lemma LeaveFirstRoomPreservesInv(s: State, ws: ConnId)
    requires Inv(s)
    ensures Inv(LeaveFirstRoom(s, ws))
  {
    match FirstRoomWith(s.order, s.rooms, ws)
    case Some(code) =>
      LeaveRoomPreservesInv(s, ws, code);
      CleanupRoomPreservesInv(LeaveRoom(s, ws, code), code);
    case None =>
  }

  /** Every message handler and the close handler keep the invariant; in particular no room ever holds more than two players. */
  lemma DispatchPreservesInv(s: State, e: Event)
    requires Inv(s)
    ensures Inv(Dispatch(s, e))
  {
    match e
    case CreateRoomMsg(ws, code) => SetRoomPreservesInv(s, code, Room([ws], EmptyBoard()));
    case JoinRoomMsg(ws, code) =>
    case MoveMsg(ws, code, index, player) =>
    case RestartMsg(code) =>
    case LeaveRoomMsg(ws, code) => LeaveRoomPreservesInv(s, ws, code);
    case QuickPlayMsg(ws, code) =>
      if |s.waiting| > 0 {
        SetRoomPreservesInv(s, code, Room([s.waiting[0], ws], EmptyBoard()));
      }
    case Closed(ws) => ClosePreservesInv(s, ws);
    case Connected(ws) =>
      if ws !in s.isAlive {
        ConnectPreservesInv(s, ws);
      }
    case PongFrom(ws) =>
    case Tick => SweepPreservesInv(s);
  }

  /** Any sequence of handled events keeps the invariant. */
  lemma {:induction false} RunPreservesInv(s: State, events: seq<Event>)
    requires Inv(s)
    ensures Inv(Run(s, events))
    decreases |events|
  {
    if events != [] {
      DispatchPreservesInv(s, events[0]);
      RunPreservesInv(Dispatch(s, events[0]), events[1..]);
    }
  }

  /** So every state the server reaches from start-up satisfies it. */
  lemma ReachableStatesAreValid(events: seq<Event>)
    ensures Inv(Run(Initial, events))
    ensures forall c :: c in Run(Initial, events).rooms ==> |Run(Initial, events).rooms[c].players| <= 2
  {
    RunPreservesInv(Initial, events);
  }

  lemma ConnectPreservesInv(s: State, ws: ConnId)
    requires Inv(s) && ws !in s.isAlive
    ensures Inv(Connect(s, ws))
  {
  }

  lemma PongPreservesInv(s: State, ws: ConnId)
    requires Inv(s) && ws in s.isAlive
    ensures Inv(Pong(s, ws))
  {
  }

  lemma SweepPreservesInv(s: State)
    requires Inv(s)
    ensures Inv(Sweep(s).0)
  {
  }

  // ---------------------------------------------------------------------------
  // Creating and joining rooms
  // ---------------------------------------------------------------------------

  /**
   * A created room holds exactly its creator, at index 0 (X), and nine empty
   * cells; the creator alone is told the code. A code already in use is
   * overwritten: its previous players are dropped.
   */
  lemma CreateRoomStartsWithCreator(s: State, ws: ConnId, code: RoomCode)
    ensures var t := CreateRoom(s, ws, code);
      && code in t.rooms
      && t.rooms[code].players == [ws]
      && t.rooms[code].gameState.Keys == EmptyBoard().Keys
      && Occupied(t.rooms[code].gameState) == {}
      && t.outbox == s.outbox + [Envelope(ws, RoomCreated(code))]
      && OtherRoomsUnchanged(s, t, code)
      && t.waiting == s.waiting && t.clients == s.clients && t.isAlive == s.isAlive
  {
  }

  /**
   * A join succeeds exactly when the room exists and has fewer than two
   * players: the joiner is appended, told `room_joined`, and the first player
   * is told `player_joined`. Otherwise nothing changes and nothing is sent.
   */
  lemma JoinRoomSucceedsIffOpen(s: State, ws: ConnId, code: RoomCode)
    requires Inv(s)
    ensures var t := JoinRoom(s, ws, code);
      && (code in s.rooms && |s.rooms[code].players| < 2 ==>
            && t.rooms[code].players == s.rooms[code].players + [ws]
            && t.rooms[code].gameState == s.rooms[code].gameState
            && |t.rooms[code].players| <= 2
            && t.outbox == s.outbox + [Envelope(ws, RoomJoined(code)),
                                       Envelope(t.rooms[code].players[0], PlayerJoined(PlayerJoinedText))]
            && OtherRoomsUnchanged(s, t, code)
            && t.order == s.order && t.waiting == s.waiting && t.clients == s.clients && t.isAlive == s.isAlive)
      && (!(code in s.rooms && |s.rooms[code].players| < 2) ==> t == s)
  {
  }

  /**
   * After `create_room` by `a`, a join by `b` succeeds (b plays O, a is told),
   * and a third join, by anyone, fails and changes nothing.
   */
  lemma CreateJoinJoin(s: State, a: ConnId, b: ConnId, c: ConnId, code: RoomCode)
    ensures var s1 := CreateRoom(s, a, code);
      var s2 := JoinRoom(s1, b, code);
      && s2.rooms[code].players == [a, b]
      && s2.outbox == s1.outbox + [Envelope(b, RoomJoined(code)), Envelope(a, PlayerJoined(PlayerJoinedText))]
      && JoinRoom(s2, c, code) == s2
  {
  }

  // ---------------------------------------------------------------------------
  // Moves and restarts
  // ---------------------------------------------------------------------------

  /**
   * A move writes the sent symbol into the sent index, whatever was there and
   * whoever sent it (no occupancy, turn or membership check); no other cell,
   * no player list and no other room changes. An index that is not an array
   * index leaves the elements as they were. A move for an unknown room does
   * nothing.
   */
  lemma MoveWritesOnlyItsCell(s: State, ws: ConnId, code: RoomCode, index: int, player: string)
    ensures code !in s.rooms ==> Move(s, ws, code, index, player) == s
    ensures code in s.rooms ==>
      var t := Move(s, ws, code, index, player);
      var before := s.rooms[code].gameState;
      var after := t.rooms[code].gameState;
      && code in t.rooms
      && t.rooms[code].players == s.rooms[code].players
      && (0 <= index <= MaxArrayIndex ==> index in after && after[index] == player)
      && (forall j :: j != index ==> (j in after <==> j in before))
      && (forall j :: j != index && j in before ==> after[j] == before[j])
      && (!(0 <= index <= MaxArrayIndex) ==> after == before)
      && OtherRoomsUnchanged(s, t, code)
      && t.order == s.order && t.waiting == s.waiting && t.clients == s.clients && t.isAlive == s.isAlive
  {
  }

  /**
   * The move is relayed once to each player of the room other than the
   * sender, in player order (the recipients are the players at the ascending
   * indices that do not hold the sender), and never to the sender; `isFirstMove` is true exactly when
   * one element of the board is non-empty after the write.
   */
  lemma MoveRelayedToOthers(s: State, ws: ConnId, code: RoomCode, index: int, player: string)
    requires code in s.rooms
    ensures var t := Move(s, ws, code, index, player);
      var sent := t.outbox[|s.outbox|..];
      var players := s.rooms[code].players;
      && |t.outbox| >= |s.outbox| && t.outbox[..|s.outbox|] == s.outbox
      && sent == Notify(Others(players, ws), MoveMade(index, player, |Occupied(t.rooms[code].gameState)| == 1))
      && |sent| == |KeptIndices(players, ws)|
      && (forall k :: 0 <= k < |sent| ==> sent[k].to == players[KeptIndices(players, ws)[k]])
      && (forall k :: 0 <= k < |sent| ==> sent[k].to in players && sent[k].to != ws)
      && (forall p :: p in players && p != ws ==> exists k :: 0 <= k < |sent| && sent[k].to == p)
      && (forall k :: 0 <= k < |sent| ==>
            sent[k].msg == MoveMade(index, player, |Occupied(t.rooms[code].gameState)| == 1))
  {
    var t := Move(s, ws, code, index, player);
    var recipients := Others(s.rooms[code].players, ws);
    var msg := MoveMade(index, player, |Occupied(t.rooms[code].gameState)| == 1);
    assert t.outbox == s.outbox + Notify(recipients, msg);
    var sent := t.outbox[|s.outbox|..];
    assert sent == Notify(recipients, msg);
    OthersInOrder(s.rooms[code].players, ws);
    forall k | 0 <= k < |sent|
      ensures sent[k].to in s.rooms[code].players && sent[k].to != ws && sent[k].msg == msg
    {
      assert sent[k] == Envelope(recipients[k], msg);
      assert recipients[k] in recipients;
    }
    forall p | p in s.rooms[code].players && p != ws
      ensures exists k :: 0 <= k < |sent| && sent[k].to == p
    {
      var k :| 0 <= k < |recipients| && recipients[k] == p;
      assert sent[k].to == p;
    }
  }

  /** On a fresh board the first non-empty write is reported as the first move. */
  lemma FirstMoveOnFreshBoard(index: int, player: string)
    requires 0 <= index <= MaxArrayIndex && player != Empty
    ensures Occupied(WriteCell(EmptyBoard(), index, player)) == {index as nat}
    ensures |Occupied(WriteCell(EmptyBoard(), index, player))| == 1
  {
    var b := WriteCell(EmptyBoard(), index, player);
    forall i | i in Occupied(b) ensures i == index { }
  }

  /** A second non-empty write at another index is not reported as a first move. */
  lemma SecondMoveIsNotFirst(board: Cells, i: nat, index: int, player: string)
    requires Occupied(board) == {i} && 0 <= index <= MaxArrayIndex && index != i && player != Empty
    ensures Occupied(WriteCell(board, index, player)) == {i, index as nat}
    ensures |Occupied(WriteCell(board, index, player))| == 2
  {
    var b := WriteCell(board, index, player);
    assert i in Occupied(b);
    forall j | j in Occupied(b) ensures j == i || j == index {
      if j != index { assert j in Occupied(board); }
    }
  }

  /** A restart empties the board, keeps the players, and sends the empty board to every player, in order. */
  lemma RestartClearsBoard(s: State, code: RoomCode)
    ensures code !in s.rooms ==> Restart(s, code) == s
    ensures code in s.rooms ==>
      var t := Restart(s, code);
      && t.rooms[code].players == s.rooms[code].players
      && t.rooms[code].gameState == EmptyBoard()
      && Occupied(t.rooms[code].gameState) == {}
      && t.outbox == s.outbox + Notify(s.rooms[code].players, GameState(EmptyBoard()))
      && (forall p :: p in s.rooms[code].players ==>
            exists k :: |s.outbox| <= k < |t.outbox| && t.outbox[k] == Envelope(p, GameState(EmptyBoard())))
      && OtherRoomsUnchanged(s, t, code)
      && t.order == s.order && t.waiting == s.waiting && t.clients == s.clients && t.isAlive == s.isAlive
  {
    if code in s.rooms {
      var t := Restart(s, code);
      var players := s.rooms[code].players;
      forall p | p in players
        ensures exists k :: |s.outbox| <= k < |t.outbox| && t.outbox[k] == Envelope(p, GameState(EmptyBoard()))
      {
        var j :| 0 <= j < |players| && players[j] == p;
        assert t.outbox[|s.outbox| + j] == Envelope(p, GameState(EmptyBoard()));
      }
    }
  }

  // ---------------------------------------------------------------------------
  // Leaving
  // ---------------------------------------------------------------------------

  /**
   * A member who leaves is removed (its first occurrence), the others keep
   * their order, and the new first player, if any, is told which symbol left:
   * X exactly when the leaver was at index 0. The room stays, even when empty.
   */
  lemma LeaveRemovesMember(s: State, ws: ConnId, code: RoomCode)
    requires code in s.rooms && ws in s.rooms[code].players
    ensures var t := LeaveRoom(s, ws, code);
      var players := s.rooms[code].players;
      var k := IndexOf(players, ws);
      var rest := t.rooms[code].players;
      && code in t.rooms
      && rest == players[..k] + players[k + 1..]
      && |rest| == |players| - 1
      && (|rest| > 0 ==> t.outbox == s.outbox + [Envelope(rest[0], PlayerLeft(PlayerLeftText(k)))])
      && (|rest| == 0 ==> t.outbox == s.outbox)
      && (PlayerLeftText(k) == "Player X has left the game" <==> k == 0)
      && t.rooms[code].gameState == s.rooms[code].gameState
      && OtherRoomsUnchanged(s, t, code)
      && t.order == s.order && t.waiting == s.waiting && t.clients == s.clients && t.isAlive == s.isAlive
  {
    SpliceIndexOf(s.rooms[code].players, ws);
    PlayerLeftNamesX(IndexOf(s.rooms[code].players, ws));
  }

  /** The departure message names X exactly when the leaver was the first player. */
  lemma PlayerLeftNamesX(k: int)
    ensures PlayerLeftText(k) == "Player X has left the game" <==> k == 0
  {
    if k != 0 {
      assert PlayerLeftText(k)[7] == 'O';
    }
  }

  /** A connection that is not a member still removes a player: the last one, and is reported as O. */
  lemma LeaveByNonMemberRemovesLast(s: State, ws: ConnId, code: RoomCode)
    requires code in s.rooms && ws !in s.rooms[code].players && s.rooms[code].players != []
    ensures var t := LeaveRoom(s, ws, code);
      var players := s.rooms[code].players;
      && t.rooms[code].players == players[..|players| - 1]
      && (|players| > 1 ==> t.outbox == s.outbox + [Envelope(players[0], PlayerLeft("Player O has left the game"))])
  {
    SpliceIndexOf(s.rooms[code].players, ws);
    assert PlayerLeftText(-1) == "Player O has left the game";
  }

  // ---------------------------------------------------------------------------
  // Quick play
  // ---------------------------------------------------------------------------

  /**
   * Quick play is first-in first-out: with someone waiting, the head of the
   * queue leaves it and plays X against the newcomer as O, each told its
   * symbol and the code, and the rest of the queue stays; with nobody waiting,
   * the newcomer is queued and told to wait.
   */
  lemma QuickPlayPairsHead(s: State, ws: ConnId, code: RoomCode)
    ensures var t := QuickPlay(s, ws, code);
      && (s.waiting != [] ==>
            && t.waiting == s.waiting[1..]
            && t.rooms[code] == Room([s.waiting[0], ws], EmptyBoard())
            && t.outbox == s.outbox + [Envelope(s.waiting[0], QuickMatchFound(code, Board.X)),
                                       Envelope(ws, QuickMatchFound(code, Board.O))]
            && OtherRoomsUnchanged(s, t, code)
            && t.order == if code in s.rooms then s.order else s.order + [code])
      && (s.waiting == [] ==>
            && t.waiting == [ws]
            && t.rooms == s.rooms && t.order == s.order
            && t.outbox == s.outbox + [Envelope(ws, WaitingForMatch)])
      && t.clients == s.clients && t.isAlive == s.isAlive
  {
  }

  /**
   * With nobody waiting, quick play by a, b and c: a waits, b is paired with a
   * (a plays X, b plays O), and c waits alone.
   */
  lemma QuickPlayScenario(s: State, a: ConnId, b: ConnId, c: ConnId, code1: RoomCode, code2: RoomCode, code3: RoomCode)
    requires s.waiting == []
    ensures var s1 := QuickPlay(s, a, code1);
      var s2 := QuickPlay(s1, b, code2);
      var s3 := QuickPlay(s2, c, code3);
      && s1.waiting == [a]
      && s2.waiting == [] && s2.rooms[code2].players == [a, b]
      && s3.waiting == [c] && s3.rooms == s2.rooms
  {
  }

  // ---------------------------------------------------------------------------
  // Closing a connection
  // ---------------------------------------------------------------------------

  /**
   * A closed connection leaves the queue and the tracked set; if it was in a
   * room, it leaves the first such room in iteration order, and that room is
   * deleted exactly when nobody is left in it; every other room is kept.
   */
  lemma CloseCleansUp(s: State, ws: ConnId)
    requires Inv(s)
    ensures var t := Close(s, ws);
      && ws !in t.waiting && ws !in t.clients && ws !in t.isAlive
      && |t.waiting| <= |s.waiting|
      && (forall c :: c != ws ==> (c in t.waiting <==> c in s.waiting))
      && (forall c :: c != ws ==> (c in t.clients <==> c in s.clients))
      && (forall c :: c != ws && c in s.isAlive ==> c in t.isAlive && t.isAlive[c] == s.isAlive[c])
      && match FirstRoomWith(s.order, s.rooms, ws)
         case None => t.rooms == s.rooms && t.outbox == s.outbox
         case Some(code) =>
           var players := s.rooms[code].players;
           var rest := players[..IndexOf(players, ws)] + players[IndexOf(players, ws) + 1..];
           && (code in t.rooms <==> rest != [])
           && (code in t.rooms ==> t.rooms[code].players == rest)
           && (rest != [] ==> t.outbox == s.outbox + [Envelope(rest[0], PlayerLeft(PlayerLeftText(IndexOf(players, ws))))])
           && (rest == [] ==> t.outbox == s.outbox)
           && OtherRoomsUnchanged(s, t, code)
  {
    var s1 := LeaveQueue(s, ws);
    LeaveQueueDrops(s, ws);
    LeaveFirstRoomCleansUp(s1, ws);
  }

  /** With at most one connection queued, leaving the queue removes `ws` from it and touches nothing else. */
  lemma LeaveQueueDrops(s: State, ws: ConnId)
    requires |s.waiting| <= 1
    ensures var t := LeaveQueue(s, ws);
      && t.waiting == RemoveValue(s.waiting, ws)
      && ws !in t.waiting && |t.waiting| <= |s.waiting|
      && (ws !in s.waiting ==> t == s)
      && t == s.(waiting := t.waiting)
  {
    SpliceIndexOf(s.waiting, ws);
    if s.waiting != [] {
      assert RemoveValue(s.waiting, ws) == RemoveValue(s.waiting[1..], ws) + (if s.waiting[0] == ws then [] else [s.waiting[0]]);
      assert s.waiting[1..] == [];
    }
  }

  /** Leaving the first room that holds `ws` splices it out of that room, deletes the room if now empty, and keeps every other room. */
  lemma LeaveFirstRoomCleansUp(s: State, ws: ConnId)
    ensures var t := LeaveFirstRoom(s, ws);
      && t.waiting == s.waiting && t.clients == s.clients && t.isAlive == s.isAlive
      && match FirstRoomWith(s.order, s.rooms, ws)
         case None => t.rooms == s.rooms
         case Some(code) =>
           var players := s.rooms[code].players;
           var rest := players[..IndexOf(players, ws)] + players[IndexOf(players, ws) + 1..];
           && (code in t.rooms <==> rest != [])
           && (code in t.rooms ==> t.rooms[code].players == rest)
           && (rest != [] ==> t.outbox == s.outbox + [Envelope(rest[0], PlayerLeft(PlayerLeftText(IndexOf(players, ws))))])
           && (rest == [] ==> t.outbox == s.outbox)
           && OtherRoomsUnchanged(s, t, code)
  {
    match FirstRoomWith(s.order, s.rooms, ws)
    case Some(code) =>
      SpliceIndexOf(s.rooms[code].players, ws);
    case None =>
  }

  /** Closing the last player of a room frees its code: a later join with it finds no room and changes nothing. */
  lemma DeletedCodeIsNotFound(s: State, b: ConnId, code: RoomCode, joiner: ConnId)
    requires Inv(s)
    requires code in s.rooms && s.rooms[code].players == [b]
    requires forall c :: c in s.rooms && c != code ==> b !in s.rooms[c].players
    ensures JoinRoom(Close(s, b), joiner, code) == Close(s, b)
  {
    CloseLastPlayerDeletesRoom(s, b, code);
  }

  /** When exactly one room holds `ws`, the close handler's search finds that room. */
  lemma {:induction false} OnlyRoomIsFound(order: seq<RoomCode>, rooms: map<RoomCode, Room>, ws: ConnId, code: RoomCode)
    requires code in order && code in rooms && ws in rooms[code].players
    requires forall c :: c in rooms && c != code ==> ws !in rooms[c].players
    ensures FirstRoomWith(order, rooms, ws) == Some(code)
  {
    if order[0] != code {
      OnlyRoomIsFound(order[1..], rooms, ws, code);
    }
  }

  /**
   * Closing one side of a two-player room tells the other side that the
   * leaver's symbol left and keeps the room with the survivor.
   */
  lemma CloseLeavesSurvivor(s: State, a: ConnId, b: ConnId, code: RoomCode)
    requires Inv(s) && a != b
    requires code in s.rooms && s.rooms[code].players == [a, b]
    requires forall c :: c in s.rooms && c != code ==> a !in s.rooms[c].players
    ensures var t := Close(s, a);
      && code in t.rooms && t.rooms[code].players == [b]
      && t.outbox == s.outbox + [Envelope(b, PlayerLeft("Player X has left the game"))]
      && OtherRoomsUnchanged(s, t, code)
  {
    var s1 := LeaveQueue(s, a);
    LeaveQueueDrops(s, a);
    OnlyRoomIsFound(s1.order, s1.rooms, a, code);
    LeaveRemovesMember(s1, a, code);
    var s2 := LeaveRoom(s1, a, code);
    assert s2.rooms[code].players == [b];
    assert CleanupRoom(s2, code) == s2;
  }

  /** Closing the last player of a room deletes the room. */
  lemma CloseLastPlayerDeletesRoom(s: State, b: ConnId, code: RoomCode)
    requires Inv(s)
    requires code in s.rooms && s.rooms[code].players == [b]
    requires forall c :: c in s.rooms && c != code ==> b !in s.rooms[c].players
    ensures code !in Close(s, b).rooms
  {
    var s1 := LeaveQueue(s, b);
    OnlyRoomIsFound(s1.order, s1.rooms, b, code);
    assert LeaveRoom(s1, b, code).rooms[code].players == [];
  }

  /** Closing both sides of a two-player room, one after the other, deletes it. */
  lemma CloseBothSides(s: State, a: ConnId, b: ConnId, code: RoomCode)
    requires Inv(s) && a != b
    requires code in s.rooms && s.rooms[code].players == [a, b]
    requires forall c :: c in s.rooms && c != code ==> a !in s.rooms[c].players && b !in s.rooms[c].players
    ensures code !in Close(Close(s, a), b).rooms
  {
    CloseLeavesSurvivor(s, a, b, code);
    ClosePreservesInv(s, a);
    CloseLastPlayerDeletesRoom(Close(s, a), b, code);
  }

  // ---------------------------------------------------------------------------
  // Liveness
  // ---------------------------------------------------------------------------

  /**
   * A sweep terminates exactly the tracked connections whose flag was false,
   * clears every flag, pings exactly the others, and changes no room and no
   * queue.
   */
  lemma SweepTerminatesExactlyDead(s: State)
    requires Inv(s)
    ensures var (t, terminated) := Sweep(s);
      && (forall c :: c in terminated <==> c in s.clients && !s.isAlive[c])
      && t.isAlive.Keys == s.isAlive.Keys
      && (forall c :: c in t.isAlive ==> !t.isAlive[c])
      && (forall k :: |s.outbox| <= k < |t.outbox| ==> t.outbox[k].msg == Ping && t.outbox[k].to in s.isAlive && s.isAlive[t.outbox[k].to])
      && (forall c :: c in s.clients && s.isAlive[c] ==> Envelope(c, Ping) in t.outbox[|s.outbox|..])
      && t.outbox[..|s.outbox|] == s.outbox
      && t.rooms == s.rooms && t.order == s.order && t.waiting == s.waiting && t.clients == s.clients
  {
    var (t, terminated) := Sweep(s);
    var live := Live(s.clients, s.isAlive);
    DeadMembers(s.clients, s.isAlive);
    LiveMembers(s.clients, s.isAlive);
    forall c | c in s.clients && s.isAlive[c] ensures Envelope(c, Ping) in t.outbox[|s.outbox|..] {
      var k :| 0 <= k < |live| && live[k] == c;
      assert t.outbox[|s.outbox|..][k] == Envelope(c, Ping);
    }
  }

  /** A pong sets the connection's flag and nothing else, so the next sweep spares it. */
  lemma PongSparesFromNextSweep(s: State, ws: ConnId)
    requires Inv(s) && ws in s.isAlive
    ensures Pong(s, ws).isAlive == s.isAlive[ws := true]
    ensures ws !in Sweep(Pong(s, ws)).1
  {
    DeadMembers(s.clients, s.isAlive[ws := true]);
  }

  /** `Dead` over all-false flags is the whole list. */
  lemma {:induction false} DeadWhenAllCleared(clients: seq<ConnId>, isAlive: map<ConnId, bool>)
    requires forall c :: c in clients ==> c in isAlive && !isAlive[c]
    ensures Dead(clients, isAlive) == clients
  {
    if clients != [] {
      var init := clients[..|clients| - 1];
      assert forall c :: c in init ==> c in clients;
      DeadWhenAllCleared(init, isAlive);
      assert clients == init + [clients[|clients| - 1]];
    }
  }

  /**
   * Two sweeps with no pong in between terminate every tracked connection: a
   * connection that stops answering is closed within two intervals.
   */
  lemma TwoSilentSweepsTerminateAll(s: State)
    requires Inv(s)
    ensures Inv(Sweep(s).0)
    ensures Sweep(Sweep(s).0).1 == s.clients
  {
    SweepPreservesInv(s);
    DeadWhenAllCleared(s.clients, Sweep(s).0.isAlive);
  }
}
