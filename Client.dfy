/**
 * The browser client's game state machine (public/script.js): the module
 * variables `gameState`, `currentPlayer`, `gameActive`, `isMyTurn`,
 * `playerSymbol` and `roomCode`, and the handlers that reassign them.
 *
 * Each handler is given twice: as a pure transition on a `View` of the
 * variables, about which the lemmas below speak, and as a method of class
 * `Game` that updates the variables in place and is proved to perform that
 * transition.
 */
module Client {
  import opened Wrappers
  import opened Board

  /** The `move` request the client sends to the server after a local move. */
  datatype MoveRequest = MoveRequest(room: Option<string>, index: nat, player: string)

  /** The client's module variables, plus the move requests sent so far. */
  datatype View = View(
    gameState: Cells,
    currentPlayer: string,
    gameActive: bool,
    isMyTurn: bool,
    playerSymbol: Option<string>,
    roomCode: Option<string>,
    sent: seq<MoveRequest>)

  /**
   * What every handler keeps: a nine-cell board, X or O to move, a symbol that
   * is X, O or none, and a symbol whenever it is this client's turn.
   */
  predicate Consistent(v: View)
  {
    && |v.gameState| == 9
    && (v.currentPlayer == X || v.currentPlayer == O)
    && (v.playerSymbol == None || v.playerSymbol == Some(X) || v.playerSymbol == Some(O))
    && (v.isMyTurn ==> v.playerSymbol.Some?)
  }

  /** The values the module variables start with. */
  function Initial(): (v: View)
    ensures Consistent(v)
  {
    View(EmptyBoard(), X, true, false, None, None, [])
  }

  /** The guard of `handleCellClick`: an empty cell, an active game, this client's turn. */
  predicate CanPlay(v: View, i: nat)
    requires i < |v.gameState|
  {
    v.gameState[i] == Empty && v.gameActive && v.isMyTurn
  }

  /**
   * After a move has been written: a win or a draw ends the game and keeps
   * `currentPlayer`; otherwise the other symbol is to move.
   */
  function AfterLocalMove(v: View): View
  {
    match Judge(v.gameState, v.currentPlayer)
    case Won => v.(gameActive := false)
    case Drawn => v.(gameActive := false)
    case Ongoing => v.(currentPlayer := Other(v.currentPlayer), isMyTurn := false)
  }

  /** `handleCellClick` on cell `i`. */
  function CellClick(v: View, i: nat): View
    requires Consistent(v) && i < 9
  {
    if !CanPlay(v, i) then v
    else
      var symbol := v.playerSymbol.value;
      AfterLocalMove(v.(gameState := v.gameState[i := symbol],
                        sent := v.sent + [MoveRequest(v.roomCode, i, symbol)]))
  }

  /** `handleRemoteMove`: the opponent's move, relayed by the server. */
  function RemoteMove(v: View, index: nat, player: string): View
    requires Consistent(v) && index < 9
  {
    var board := v.gameState[index := player];
    match Judge(board, v.currentPlayer)
    case Won => v.(gameState := board, gameActive := false)
    case Drawn => v.(gameState := board, gameActive := false)
    case Ongoing =>
      var next := Other(v.currentPlayer);
      v.(gameState := board, currentPlayer := next, isMyTurn := Some(next) == v.playerSymbol)
  }

  /** `handleGameState`: the server's fresh board after a restart. */
  function GameState(v: View, state: Cells): View
    requires |state| == 9
  {
    v.(gameState := state, gameActive := true, currentPlayer := X, isMyTurn := v.playerSymbol == Some(X))
  }

  /** `handleRoomCreated`: the creator plays X and moves first. */
  function RoomCreated(v: View, room: string): View
  {
    v.(roomCode := Some(room), playerSymbol := Some(X), isMyTurn := true)
  }

  /** `handleRoomJoined`: the joiner plays O and waits. */
  function RoomJoined(v: View, room: string): View
  {
    v.(roomCode := Some(room), playerSymbol := Some(O), isMyTurn := false)
  }

  /** `handleQuickMatch`: the symbol comes from the server; X moves first. */
  function QuickMatch(v: View, room: string, symbol: string): View
  {
    v.(roomCode := Some(room), playerSymbol := Some(symbol), isMyTurn := symbol == X)
  }

  /** `handlePlayerLeft`, and likewise the connection's close and error handlers: the game stops. */
  function StopGame(v: View): View
  {
    v.(gameActive := false)
  }

  /** `resetGame`: back to the lobby. */
  function Reset(v: View): View
  {
    View(EmptyBoard(), X, true, false, None, None, v.sent)
  }

  /** The `keydown` handler: a keypad key clicks its cell when the click would be accepted. */
  function KeyDown(v: View, key: string): View
    requires Consistent(v)
  {
    if !v.gameActive || !v.isMyTurn then v
    else if key in KeyToIndex && v.gameState[KeyToIndex[key]] == Empty then CellClick(v, KeyToIndex[key])
    else v
  }

  // ---------------------------------------------------------------------------
  // Properties of the transitions
  // ---------------------------------------------------------------------------

  /**
   * A click changes nothing unless the cell is empty, the game active and the
   * turn this client's; an accepted click writes the client's symbol into that
   * cell only, sends it to the server and fills exactly one cell.
   */
  lemma CellClickWritesOneCell(v: View, i: nat)
    requires Consistent(v) && i < 9
    ensures var w := CellClick(v, i);
      && Consistent(w)
      && (!CanPlay(v, i) ==> w == v)
      && (CanPlay(v, i) ==>
            && w.gameState == v.gameState[i := v.playerSymbol.value]
            && w.gameState[i] != Empty
            && EmptyCount(w.gameState) == EmptyCount(v.gameState) - 1
            && w.sent == v.sent + [MoveRequest(v.roomCode, i, v.playerSymbol.value)]
            && w.playerSymbol == v.playerSymbol && w.roomCode == v.roomCode)
  {
    if CanPlay(v, i) {
      FillOneCell(v.gameState, i, v.playerSymbol.value);
    }
  }

  /**
   * After an accepted click, a win or a draw for `currentPlayer` stops the game
   * and keeps `currentPlayer`; any other position passes the turn: the symbol
   * toggles and it is no longer this client's turn.
   */
  lemma CellClickTurnRule(v: View, i: nat)
    requires Consistent(v) && i < 9 && CanPlay(v, i)
    ensures var w := CellClick(v, i);
      && (CheckWin(w.gameState, v.currentPlayer) || CheckDraw(w.gameState) ==>
            !w.gameActive && w.currentPlayer == v.currentPlayer)
      && (!CheckWin(w.gameState, v.currentPlayer) && !CheckDraw(w.gameState) ==>
            && w.gameActive
            && w.currentPlayer != v.currentPlayer
            && (w.currentPlayer == X || w.currentPlayer == O)
            && !w.isMyTurn)
  {
  }

  /**
   * A relayed move is written as sent; after a non-terminal one the symbol to
   * move toggles and it is this client's turn exactly when that symbol is its own.
   */
  lemma RemoteMoveTurnRule(v: View, index: nat, player: string)
    requires Consistent(v) && index < 9
    ensures var w := RemoteMove(v, index, player);
      && Consistent(w)
      && w.gameState == v.gameState[index := player]
      && w.playerSymbol == v.playerSymbol && w.roomCode == v.roomCode
      && (CheckWin(w.gameState, v.currentPlayer) || CheckDraw(w.gameState) ==>
            !w.gameActive && w.currentPlayer == v.currentPlayer && w.isMyTurn == v.isMyTurn)
      && (!CheckWin(w.gameState, v.currentPlayer) && !CheckDraw(w.gameState) ==>
            && w.currentPlayer != v.currentPlayer
            && w.gameActive == v.gameActive
            && (w.isMyTurn <==> v.playerSymbol == Some(w.currentPlayer)))
  {
  }

  /**
   * Two clients that agree on the board and the symbol to move, where the mover
   * holds that symbol and the other the other one: after the mover's accepted
   * click and the relay of the same move, they agree again, and on a
   * non-terminal move the turn has passed to the opponent.
   */
  lemma MoveAndRelayAgree(mover: View, peer: View, i: nat)
    requires Consistent(mover) && Consistent(peer) && i < 9
    requires mover.gameState == peer.gameState && mover.currentPlayer == peer.currentPlayer
    requires mover.playerSymbol == Some(mover.currentPlayer)
    requires peer.playerSymbol == Some(Other(mover.currentPlayer))
    requires CanPlay(mover, i)
    ensures var m := CellClick(mover, i);
      var p := RemoteMove(peer, i, mover.currentPlayer);
      && m.gameState == p.gameState
      && m.currentPlayer == p.currentPlayer
      && (m.gameActive ==> !m.isMyTurn && p.isMyTurn)
      && (!m.gameActive ==> !p.gameActive)
  {
  }

  /**
   * After a `game_state` message the board is the one received, the game is
   * active, X is to move and it is this client's turn exactly when it plays X.
   */
  lemma GameStateRestartsAtX(v: View, state: Cells)
    requires Consistent(v) && |state| == 9
    ensures var w := GameState(v, state);
      && Consistent(w)
      && w.gameState == state && w.gameActive && w.currentPlayer == X
      && (w.isMyTurn <==> v.playerSymbol == Some(X))
      && w.playerSymbol == v.playerSymbol && w.roomCode == v.roomCode
  {
  }

  /** The creator of a room plays X with the turn; the joiner plays O without it. */
  lemma RoomHandlersAssignSymbols(v: View, room: string)
    requires Consistent(v)
    ensures var c := RoomCreated(v, room);
      Consistent(c) && c.playerSymbol == Some(X) && c.isMyTurn && c.roomCode == Some(room)
    ensures var j := RoomJoined(v, room);
      Consistent(j) && j.playerSymbol == Some(O) && !j.isMyTurn && j.roomCode == Some(room)
    ensures var c := RoomCreated(v, room);
      c.gameState == v.gameState && c.currentPlayer == v.currentPlayer && c.gameActive == v.gameActive
  {
  }

  /** A quick match gives the client the symbol the server chose, and the turn exactly when that symbol is X. */
  lemma QuickMatchAssignsSymbol(v: View, room: string, symbol: string)
    requires Consistent(v) && (symbol == X || symbol == O)
    ensures var q := QuickMatch(v, room, symbol);
      Consistent(q) && q.playerSymbol == Some(symbol) && (q.isMyTurn <==> symbol == X) && q.roomCode == Some(room)
  {
  }

  /** `resetGame` empties the board, forgets room and symbol, and leaves X to move in an active game. */
  lemma ResetGameClears(v: View)
    ensures var w := Reset(v);
      && Consistent(w)
      && EmptyCount(w.gameState) == 9 && |w.gameState| == 9
      && w.roomCode == None && w.playerSymbol == None
      && !w.isMyTurn && w.gameActive && w.currentPlayer == X
  {
    var e := EmptyBoard();
    assert e == [Empty] + e[1..];
    assert e[1..] == [Empty] + e[2..];
    assert e[2..] == [Empty] + e[3..];
    assert e[3..] == [Empty] + e[4..];
    assert e[4..] == [Empty] + e[5..];
    assert e[5..] == [Empty] + e[6..];
    assert e[6..] == [Empty] + e[7..];
    assert e[7..] == [Empty] + e[8..];
    assert e[8..] == [Empty];
  }

  /**
   * A key acts only when the game is active, it is this client's turn, the key
   * is one of '1'..'9' and its cell is empty; it then performs the click on
   * that cell. Every other key press changes nothing.
   */
  lemma KeyDownClicksItsCell(v: View, key: string)
    requires Consistent(v)
    ensures key in KeyToIndex && KeyToIndex[key] < 9 && CanPlay(v, KeyToIndex[key]) ==>
      KeyDown(v, key) == CellClick(v, KeyToIndex[key]) && KeyDown(v, key) != v
    ensures !(key in KeyToIndex && KeyToIndex[key] < 9 && CanPlay(v, KeyToIndex[key])) ==>
      KeyDown(v, key) == v
  {
    KeyToIndexIsBijective();
    if key in KeyToIndex && CanPlay(v, KeyToIndex[key]) {
      CellClickWritesOneCell(v, KeyToIndex[key]);
    }
  }

  /** Stopping the game keeps everything but `gameActive`. */
  lemma StopGameOnlyDeactivates(v: View)
    requires Consistent(v)
    ensures Consistent(StopGame(v)) && !StopGame(v).gameActive
    ensures StopGame(v).(gameActive := v.gameActive) == v
  {
  }

  // ---------------------------------------------------------------------------
  // The module variables, updated in place
  // ---------------------------------------------------------------------------

  class Game {
    var gameState: Cells
    var currentPlayer: string
    var gameActive: bool
    var isMyTurn: bool
    var playerSymbol: Option<string>
    var roomCode: Option<string>
    var sent: seq<MoveRequest>

    /** The current values of the module variables. */
    function Snapshot(): View
      reads this
    {
      View(gameState, currentPlayer, gameActive, isMyTurn, playerSymbol, roomCode, sent)
    }

    ghost predicate Valid()
      reads this
    {
      Consistent(Snapshot())
    }

    constructor ()
      ensures Valid() && Snapshot() == Initial()
    {
      gameState := EmptyBoard();
      currentPlayer := X;
      gameActive := true;
      isMyTurn := false;
      playerSymbol := None;
      roomCode := None;
      sent := [];
    }

    method HandleCellClick(cellIndex: nat)
      requires Valid() && cellIndex < 9
      modifies this
      ensures Valid() && Snapshot() == CellClick(old(Snapshot()), cellIndex)
    {
      if gameState[cellIndex] != Empty || !gameActive || !isMyTurn {
        return;
      }
      gameState := gameState[cellIndex := playerSymbol.value];
      sent := sent + [MoveRequest(roomCode, cellIndex, playerSymbol.value)];
      if CheckWin(gameState, currentPlayer) {
        gameActive := false;
        return;
      }
      if CheckDraw(gameState) {
        gameActive := false;
        return;
      }
      currentPlayer := if currentPlayer == X then O else X;
      isMyTurn := false;
    }

    method HandleRemoteMove(index: nat, player: string)
      requires Valid() && index < 9
      modifies this
      ensures Valid() && Snapshot() == RemoteMove(old(Snapshot()), index, player)
    {
      gameState := gameState[index := player];
      if CheckWin(gameState, currentPlayer) {
        gameActive := false;
        return;
      }
      if CheckDraw(gameState) {
        gameActive := false;
        return;
      }
      currentPlayer := if currentPlayer == X then O else X;
      isMyTurn := Some(currentPlayer) == playerSymbol;
    }

    method HandleGameState(state: Cells)
      requires Valid() && |state| == 9
      modifies this
      ensures Valid() && Snapshot() == GameState(old(Snapshot()), state)
    {
      gameState := state;
      gameActive := true;
      currentPlayer := X;
      isMyTurn := playerSymbol == Some(X);
    }

    method HandleRoomCreated(room: string)
      requires Valid()
      modifies this
      ensures Valid() && Snapshot() == RoomCreated(old(Snapshot()), room)
    {
      roomCode := Some(room);
      playerSymbol := Some(X);
      isMyTurn := true;
    }

    method HandleRoomJoined(room: string)
      requires Valid()
      modifies this
      ensures Valid() && Snapshot() == RoomJoined(old(Snapshot()), room)
    {
      roomCode := Some(room);
      playerSymbol := Some(O);
      isMyTurn := false;
    }

    method HandleQuickMatch(room: string, symbol: string)
      requires Valid() && (symbol == X || symbol == O)
      modifies this
      ensures Valid() && Snapshot() == QuickMatch(old(Snapshot()), room, symbol)
    {
      roomCode := Some(room);
      playerSymbol := Some(symbol);
      isMyTurn := playerSymbol == Some(X);
    }

    method HandlePlayerLeft()
      requires Valid()
      modifies this
      ensures Valid() && Snapshot() == StopGame(old(Snapshot()))
    {
      gameActive := false;
    }

    method ResetGame()
      requires Valid()
      modifies this
      ensures Valid() && Snapshot() == Reset(old(Snapshot()))
    {
      roomCode := None;
      playerSymbol := None;
      isMyTurn := false;
      gameActive := true;
      gameState := EmptyBoard();
      currentPlayer := X;
    }

    method HandleKeyDown(key: string)
      requires Valid()
      modifies this
      ensures Valid() && Snapshot() == KeyDown(old(Snapshot()), key)
    {
      if !gameActive || !isMyTurn {
        return;
      }
      if key in KeyToIndex {
        var index := KeyToIndex[key];
        KeyToIndexIsBijective();
        if gameState[index] == Empty {
          HandleCellClick(index);
        }
      }
    }
  }
}
