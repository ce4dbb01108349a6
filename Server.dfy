/**
 * The handlers of server.js, updating the coordinator's state in place. Each
 * method is proved to perform the transition of the same name in module
 * ServerState and to keep its invariant.
 */
module Server {
  import opened Wrappers
  import opened ServerState
  import Board
  import opened ServerProperties

  /** A prefix of the tracked connections holds only tracked connections. */
  lemma PrefixOf(clients: seq<ConnId>, i: nat)
    requires i <= |clients|
    ensures forall c :: c in clients[..i] ==> c in clients
  {
  }

  /** Relaying to one more player sends to it exactly when it is not the mover. */
  lemma RelayOneMore(players: seq<ConnId>, ws: ConnId, i: nat, msg: Message)
    requires i < |players|
    ensures Notify(Others(players[..i + 1], ws), msg)
         == Notify(Others(players[..i], ws), msg) + (if players[i] != ws then [Envelope(players[i], msg)] else [])
  {
    assert players[..i + 1][..i] == players[..i];
    NotifyAppend(Others(players[..i], ws), players[i], msg);
  }

  /** In a list without duplicates, the element at `i` does not occur before `i`. */
  lemma NotYetVisited(cs: seq<ConnId>, i: nat)
    requires Distinct(cs) && i < |cs|
    ensures cs[i] !in cs[..i]
    ensures cs[..i + 1] == cs[..i] + [cs[i]]
  {
  }

  /** Sweeping one more connection terminates it exactly when its flag is false. */
  lemma DeadOneMore(clients: seq<ConnId>, flags: map<ConnId, bool>, i: nat)
    requires i < |clients| && forall c :: c in clients ==> c in flags
    ensures Dead(clients[..i + 1], flags) == Dead(clients[..i], flags) + (if !flags[clients[i]] then [clients[i]] else [])
  {
    PrefixOf(clients, i);
    PrefixOf(clients, i + 1);
    assert clients[..i + 1][..i] == clients[..i];
  }

  /** Sweeping one more connection pings it exactly when its flag is true. */
  lemma LiveOneMore(clients: seq<ConnId>, flags: map<ConnId, bool>, i: nat)
    requires i < |clients| && forall c :: c in clients ==> c in flags
    ensures Live(clients[..i + 1], flags) == Live(clients[..i], flags) + (if flags[clients[i]] then [clients[i]] else [])
  {
    PrefixOf(clients, i);
    PrefixOf(clients, i + 1);
    assert clients[..i + 1][..i] == clients[..i];
  }

  /** Once every tracked connection's flag is false, the whole flag map is cleared. */
  lemma AllFlagsCleared(clients: seq<ConnId>, flags: map<ConnId, bool>, cleared: map<ConnId, bool>)
    requires (forall c :: c in cleared <==> c in flags) && forall c :: c in flags ==> c in clients
    requires forall c :: c in cleared ==> cleared[c] == (flags[c] && c !in clients)
    ensures cleared == map c | c in flags :: false
  {
  }

  /**
   * The state of the heartbeat sweep after visiting the first `i` tracked
   * connections: those visited have their flag cleared, the others keep theirs,
   * and the dead ones were collected and the live ones pinged, in list order.
   */
  ghost predicate Swept(cs: seq<ConnId>, flags: map<ConnId, bool>, sent: seq<Envelope>, i: nat,
                        alive: map<ConnId, bool>, terminated: seq<ConnId>, pinged: seq<ConnId>, out: seq<Envelope>)
  {
    i <= |cs| &&
    Distinct(cs) && (forall c :: c in flags <==> c in cs) &&
    (forall c :: c in alive <==> c in flags) &&
    (forall c :: c in alive ==> alive[c] == (flags[c] && c !in cs[..i])) &&
    terminated == Dead(cs[..i], flags) &&
    pinged == Live(cs[..i], flags) &&
    out == sent + Notify(pinged, Ping)
  }

  lemma SweptNone(cs: seq<ConnId>, flags: map<ConnId, bool>, sent: seq<Envelope>)
    requires Distinct(cs) && forall c :: c in flags <==> c in cs
    ensures Swept(cs, flags, sent, 0, flags, [], [], sent)
  {
    assert cs[..0] == [];
  }

  /** Visiting connection `i` terminates it if its flag is false, else clears the flag and pings it. */
  lemma SweptOneMore(cs: seq<ConnId>, flags: map<ConnId, bool>, sent: seq<Envelope>, i: nat,
                     alive: map<ConnId, bool>, terminated: seq<ConnId>, pinged: seq<ConnId>, out: seq<Envelope>)
    requires i < |cs| && Swept(cs, flags, sent, i, alive, terminated, pinged, out)
    ensures cs[i] in alive
    ensures !alive[cs[i]] ==> Swept(cs, flags, sent, i + 1, alive, terminated + [cs[i]], pinged, out)
    ensures alive[cs[i]] ==>
      Swept(cs, flags, sent, i + 1, alive[cs[i] := false], terminated, pinged + [cs[i]], out + [Envelope(cs[i], Ping)])
  {
    var ws := cs[i];
    NotYetVisited(cs, i);
    PrefixOf(cs, i);
    PrefixOf(cs, i + 1);
    DeadOneMore(cs, flags, i);
    LiveOneMore(cs, flags, i);
    NotifyAppend(pinged, ws, Ping);
  }

  /** After the last connection, the sweep has done what `Sweep` specifies. */
  lemma SweptAll(cs: seq<ConnId>, flags: map<ConnId, bool>, sent: seq<Envelope>,
                 alive: map<ConnId, bool>, terminated: seq<ConnId>, pinged: seq<ConnId>, out: seq<Envelope>)
    requires Swept(cs, flags, sent, |cs|, alive, terminated, pinged, out)
    ensures terminated == Dead(cs, flags)
    ensures alive == map c | c in flags :: false
    ensures out == sent + Notify(Live(cs, flags), Ping)
  {
    assert cs[..|cs|] == cs;
    AllFlagsCleared(cs, flags, alive);
  }

  class Coordinator {
    /** The `rooms` Map, and the order in which its entries are iterated. */
    var rooms: map<RoomCode, Room>
    var order: seq<RoomCode>
    var waitingPlayers: seq<ConnId>
    /** The connections the WebSocket server tracks, and each one's `isAlive` flag. */
    var clients: seq<ConnId>
    var isAlive: map<ConnId, bool>
    /** Every message sent so far, in sending order. */
    var outbox: seq<Envelope>

    function Snapshot(): State
      reads this
    {
      State(rooms, order, waitingPlayers, clients, isAlive, outbox)
    }

    ghost predicate Valid()
      reads this
    {
      Inv(Snapshot())
    }

    constructor ()
      ensures Valid() && Snapshot() == Initial
    {
      rooms := map[];
      order := [];
      waitingPlayers := [];
      clients := [];
      isAlive := map[];
      outbox := [];
    }

    /** `ws.send(...)`. */
    method Send(to: ConnId, msg: Message)
      modifies this`outbox
      ensures outbox == old(outbox) + [Envelope(to, msg)]
    {
      outbox := outbox + [Envelope(to, msg)];
    }

    /** `rooms.set(code, room)`. */
    method SetRoom(code: RoomCode, room: Room)
      modifies this`rooms, this`order
      ensures rooms == old(rooms)[code := room]
      ensures order == if code in old(rooms) then old(order) else old(order) + [code]
    {
      if code !in rooms {
        order := order + [code];
      }
      rooms := rooms[code := room];
    }

    /** The `connection` handler: track the new connection, alive. */
    method Connect(ws: ConnId)
      requires Valid() && ws !in isAlive
      modifies this
      ensures Valid() && Snapshot() == ServerState.Connect(old(Snapshot()), ws)
    {
      ConnectPreservesInv(Snapshot(), ws);
      clients := clients + [ws];
      isAlive := isAlive[ws := true];
    }

    method HandlePong(ws: ConnId)
      requires Valid() && ws in isAlive
      modifies this
      ensures Valid() && Snapshot() == Pong(old(Snapshot()), ws)
    {
      PongPreservesInv(Snapshot(), ws);
      isAlive := isAlive[ws := true];
    }

    method HandleCreateRoom(ws: ConnId, roomCode: RoomCode)
      requires Valid()
      modifies this
      ensures Valid() && Snapshot() == CreateRoom(old(Snapshot()), ws, roomCode)
    {
      DispatchPreservesInv(Snapshot(), CreateRoomMsg(ws, roomCode));
      SetRoom(roomCode, Room([ws], EmptyBoard()));
      Send(ws, RoomCreated(roomCode));
    }

    method HandleJoinRoom(ws: ConnId, roomCode: RoomCode)
      requires Valid()
      modifies this
      ensures Valid() && Snapshot() == JoinRoom(old(Snapshot()), ws, roomCode)
    {
      if roomCode in rooms && |rooms[roomCode].players| < 2 {
        var room := rooms[roomCode];
        rooms := rooms[roomCode := room.(players := room.players + [ws])];
        Send(ws, RoomJoined(roomCode));
        Send(rooms[roomCode].players[0], PlayerJoined(PlayerJoinedText));
      }
    }

    method HandleLeaveRoom(ws: ConnId, roomCode: RoomCode)
      requires Valid()
      modifies this
      ensures Valid() && Snapshot() == LeaveRoom(old(Snapshot()), ws, roomCode)
    {
      LeaveRoomPreservesInv(Snapshot(), ws, roomCode);
      if roomCode in rooms {
        var room := rooms[roomCode];
        var playerIndex := IndexOf(room.players, ws);
        var players := Splice1(room.players, playerIndex);
        rooms := rooms[roomCode := room.(players := players)];
        if |players| > 0 {
          Send(players[0], PlayerLeft(PlayerLeftText(playerIndex)));
        }
      }
    }

    method HandleMove(ws: ConnId, roomCode: RoomCode, index: int, player: string)
      requires Valid()
      modifies this
      ensures Valid() && Snapshot() == Move(old(Snapshot()), ws, roomCode, index, player)
    {
      if roomCode !in rooms {
        return;
      }
      var room := rooms[roomCode];
      var board := WriteCell(room.gameState, index, player);
      rooms := rooms[roomCode := room.(gameState := board)];
      var isFirstMove := |Occupied(board)| == 1;
      var msg := MoveMade(index, player, isFirstMove);
      Relay(room.players, ws, msg);
    }

    /** The `forEach` of the move handler: send `msg` to every player other than the mover, in order. */
    method Relay(players: seq<ConnId>, ws: ConnId, msg: Message)
      modifies this`outbox
      ensures outbox == old(outbox) + Notify(Others(players, ws), msg)
    {
      ghost var sent := outbox;
      var i := 0;
      while i < |players|
        invariant 0 <= i <= |players|
        invariant outbox == sent + Notify(Others(players[..i], ws), msg)
      {
        RelayOneMore(players, ws, i, msg);
        if players[i] != ws {
          Send(players[i], msg);
        }
        i := i + 1;
      }
      assert players[..i] == players;
    }

    method HandleRestart(roomCode: RoomCode)
      requires Valid()
      modifies this
      ensures Valid() && Snapshot() == Restart(old(Snapshot()), roomCode)
    {
      if roomCode !in rooms {
        return;
      }
      var room := rooms[roomCode];
      rooms := rooms[roomCode := room.(gameState := EmptyBoard())];
      Broadcast(room.players, GameState(EmptyBoard()));
    }

    /** The `forEach` of the restart handler: send `msg` to every player, in order. */
    method Broadcast(players: seq<ConnId>, msg: Message)
      modifies this`outbox
      ensures outbox == old(outbox) + Notify(players, msg)
    {
      ghost var sent := outbox;
      var i := 0;
      while i < |players|
        invariant 0 <= i <= |players|
        invariant outbox == sent + Notify(players[..i], msg)
      {
        assert players[..i + 1] == players[..i] + [players[i]];
        NotifyAppend(players[..i], players[i], msg);
        Send(players[i], msg);
        i := i + 1;
      }
      assert players[..i] == players;
    }

    method CleanupRoom(roomCode: RoomCode)
      requires Valid()
      modifies this
      ensures Valid() && Snapshot() == ServerState.CleanupRoom(old(Snapshot()), roomCode)
    {
      CleanupRoomPreservesInv(Snapshot(), roomCode);
      if roomCode in rooms && |rooms[roomCode].players| == 0 {
        rooms := rooms - {roomCode};
        order := RemoveValue(order, roomCode);
      }
    }

    method HandleQuickPlay(ws: ConnId, roomCode: RoomCode)
      requires Valid()
      modifies this
      ensures Valid() && Snapshot() == QuickPlay(old(Snapshot()), ws, roomCode)
    {
      ghost var t := QuickPlay(Snapshot(), ws, roomCode);
      QuickPlayPreservesInv(Snapshot(), ws, roomCode);
      if |waitingPlayers| > 0 {
        var opponent := waitingPlayers[0];
        waitingPlayers := waitingPlayers[1..];
        SetRoom(roomCode, Room([opponent, ws], EmptyBoard()));
        Send(opponent, QuickMatchFound(roomCode, Board.X));
        Send(ws, QuickMatchFound(roomCode, Board.O));
      } else {
        waitingPlayers := waitingPlayers + [ws];
        Send(ws, WaitingForMatch);
      }
      assert rooms == t.rooms && order == t.order && waitingPlayers == t.waiting && outbox == t.outbox;
    }

    /** The `close` handler, followed by the server forgetting the connection. */
    method HandleClose(ws: ConnId)
      requires Valid()
      modifies this
      ensures Valid() && Snapshot() == Close(old(Snapshot()), ws)
    {
      ghost var s0 := Snapshot();
      ClosePreservesInv(s0, ws);
      LeaveQueuePreservesInv(s0, ws);
      LeaveFirstRoomPreservesInv(LeaveQueue(s0, ws), ws);
      var waitingIndex := IndexOf(waitingPlayers, ws);
      if waitingIndex != -1 {
        waitingPlayers := Splice1(waitingPlayers, waitingIndex);
      }
      assert Snapshot() == LeaveQueue(s0, ws);
      var found := FindRoomOf(ws);
      if found.Some? {
        HandleLeaveRoom(ws, found.value);
        CleanupRoom(found.value);
      }
      assert Snapshot() == LeaveFirstRoom(LeaveQueue(s0, ws), ws);
      clients := RemoveValue(clients, ws);
      isAlive := isAlive - {ws};
    }

    /** The `for ... of rooms.entries()` search of the close handler: the first room, in iteration order, holding `ws`. */
    method FindRoomOf(ws: ConnId) returns (found: Option<RoomCode>)
      requires forall c :: c in order ==> c in rooms
      ensures found == FirstRoomWith(order, rooms, ws)
    {
      found := None;
      var i := 0;
      while i < |order| && found.None?
        invariant 0 <= i <= |order|
        invariant found.None? ==> FirstRoomWith(order, rooms, ws) == FirstRoomWith(order[i..], rooms, ws)
        invariant found.Some? ==> FirstRoomWith(order, rooms, ws) == found
      {
        var roomCode := order[i];
        assert order[i..][1..] == order[i + 1..];
        if ws in rooms[roomCode].players {
          found := Some(roomCode);
        }
        i := i + 1;
      }
    }

    /** One run of the liveness interval; returns the connections it terminates. */
    method SweepStep() returns (terminated: seq<ConnId>)
      requires Valid()
      modifies this
      ensures Valid() && (Snapshot(), terminated) == Sweep(old(Snapshot()))
    {
      ghost var s0 := Snapshot();
      SweepPreservesInv(s0);
      terminated := PingOrTerminate();
      assert isAlive == Sweep(s0).0.isAlive && outbox == Sweep(s0).0.outbox;
    }

    /**
     * The body of the interval: each tracked connection whose flag is still
     * false is terminated, every other one has its flag cleared and is pinged.
     */
    method PingOrTerminate() returns (terminated: seq<ConnId>)
      requires Distinct(clients) && forall c :: c in isAlive <==> c in clients
      modifies this`isAlive, this`outbox
      ensures terminated == Dead(clients, old(isAlive))
      ensures isAlive == map c | c in old(isAlive) :: false
      ensures outbox == old(outbox) + Notify(Live(clients, old(isAlive)), Ping)
    {
      var cs := clients;
      var alive := isAlive;
      var out := outbox;
      ghost var pinged: seq<ConnId> := [];
      terminated := [];
      var i := 0;
      SweptNone(cs, isAlive, outbox);
      while i < |cs|
        modifies {}
        invariant i <= |cs|
        invariant Swept(cs, isAlive, outbox, i, alive, terminated, pinged, out)
      {
        var ws := cs[i];
        SweptOneMore(cs, isAlive, outbox, i, alive, terminated, pinged, out);
        if !alive[ws] {
          terminated := terminated + [ws];
        } else {
          alive := alive[ws := false];
          pinged := pinged + [ws];
          out := out + [Envelope(ws, Ping)];
        }
        i := i + 1;
      }
      SweptAll(cs, isAlive, outbox, alive, terminated, pinged, out);
      isAlive := alive;
      outbox := out;
    }
  }
}
