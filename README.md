# Multiplayer Tic-Tac-Toe: a Dafny model

This project models the core of a Node.js multiplayer Tic-Tac-Toe service and proves properties of it. The core has four parts.

- **The WebSocket coordinator** (`server.js`) keeps three things. `rooms` maps a room code to its players and a nine-cell board. `waitingPlayers` is the quick-play queue. Each connection also has an `isAlive` flag. Six message handlers, the close handler, the pong handler and the 30-second ping sweep change this state and send messages.
  - Module `ServerState` gives every handler as a pure transition on a `State` record. Sent messages go into an `outbox`.
  - Module `ServerProperties` proves what the handlers guarantee. This includes the invariant that no room ever holds more than two players.
  - Module `Server` gives class `Coordinator`. Its fields are the same state, and its methods update them in place, with loops wherever the handlers loop. Each method is proved to perform its transition and to keep the invariant.
- **The browser client** (`public/script.js`).
  - Module `Board` holds the winning lines, `checkWin`, `checkDraw` and the numeric-keypad table. It proves them against an independent row/column/diagonal definition.
  - Module `Client` gives each handler as a transition on the client's module variables, plus lemmas about turns and about agreement with the peer.
  - Class `Client.Game` updates those variables in place.
- **The achievement evaluator** (`services/achievementService.js`). Module `AchievementService` has:
  - the decision for one achievement;
  - the unlock loop, specified by the function `Scan`;
  - class `Account`, whose `CheckAchievements` method runs that loop and updates the user's held-achievement set.
- **The achievement catalogue** (`config/achievements.js`). Module `AchievementCatalogue` holds the eight entries.

The model follows the code, quirks included:
- A move is not checked for occupancy, turn or membership.
- Leaving a room never deletes it. Only the close handler's `cleanupRoom` does.
- A failed join sends nothing.
- A room code that is already in use is overwritten.
- A leave by a connection that is not in the room removes the last player, because `indexOf` returns -1 and `splice(-1, 1)` removes the last element.
- Game modes, forfeits, server-side win detection, `opponent_disconnected` from the server and `achievement_unlocked` are not implemented by the server, so they are absent here too.

## Model

| member | source | states |
|---|---|---|
| Board.EmptyBoard | public/script.js:9 | the start board has nine cells, all empty |
| Board.Other | public/script.js:101 | X is followed by O and O by X |
| Board.CheckWinIffThreeInARow | public/script.js:109-115 | `checkWin` over the eight-entry table holds exactly when the symbol fills a row, a column or a diagonal of the 3x3 grid |
| Board.CheckDrawIffNoEmptyCell | public/script.js:117-119 | `checkDraw` holds exactly when the count of empty cells is zero |
| Board.FillOneCell | public/script.js:70-73 | writing a symbol into an empty cell lowers the empty count by exactly one |
| Board.FullBoardWithLineIsWon | public/script.js:85-98 | a full board with a line for the player to move is reported as a win, not a draw, because the win test runs first |
| Board.DrawnMeansFullWithoutLine | public/script.js:85-98 | a draw is reported only for a full board with no line for the player to move |
| Board.KeyToIndexIsNumpadLayout | public/script.js:365-369 | the key table's keys are exactly '1'..'9', and each maps to its cell on a numeric keypad (7-8-9 on the top row) |
| Board.NumpadIndexIsBijective | public/script.js:365-369 | the keypad layout sends distinct digits to distinct cells and reaches every cell |
| Board.KeyToIndexIsBijective | public/script.js:365-369 | the key table is a bijection from its nine keys onto cells 0..8 |
| Client.Initial | public/script.js:7-27 | the start values are consistent: X to move, nine empty cells, an active game, no room, no symbol and not this client's turn |
| Client.CellClickWritesOneCell | public/script.js:66-83 | a click on an occupied cell, in an inactive game or out of turn changes nothing; an accepted click writes the client's symbol into that cell only, fills one more cell and sends the move with the room code |
| Client.CellClickTurnRule | public/script.js:84-103 | after an accepted click, a win or draw stops the game and keeps `currentPlayer`; otherwise the symbol to move toggles and it is no longer this client's turn |
| Client.RemoteMoveTurnRule | public/script.js:191-217 | a relayed move is written as sent; a win or draw stops the game; otherwise the symbol toggles and `isMyTurn` holds exactly when the new symbol is the client's own |
| Client.MoveAndRelayAgree | public/script.js:66-107 | when two clients agree on board and symbol to move, the mover's click and its relay to the peer leave them agreeing again, with the turn passed to the peer unless the game ended, in which case both stop |
| Client.GameStateRestartsAtX | public/script.js:280-285 | after `game_state` the board is the one received, the game is active, X moves and it is this client's turn exactly when it plays X |
| Client.RoomHandlersAssignSymbols | public/script.js:169-189 | the creator plays X with the turn and the joiner O without it, both in the room they were told; creating a room keeps the board, the symbol to move and the game state |
| Client.QuickMatchAssignsSymbol | public/script.js:428-446 | a quick match gives the client the symbol the server chose, and the turn exactly when that symbol is X |
| Client.ResetGameClears | public/script.js:329-335 | a reset leaves nine empty cells, no room, no symbol, not this client's turn, an active game and X to move |
| Client.KeyDownClicksItsCell | public/script.js:361-377 | a key acts exactly when the game is active, it is this client's turn, the key is '1'..'9' and its cell is empty; it then performs the click on that cell, and any other key press changes nothing |
| Client.StopGameOnlyDeactivates | public/script.js:392-397 | leaving stops the game and changes nothing else |
| Client.Game.constructor | public/script.js:7-27 | the variables start at the initial values |
| Client.Game.HandleCellClick | public/script.js:66-107 | the variables after the handler are the click transition of those before, and stay consistent |
| Client.Game.HandleRemoteMove | public/script.js:191-228 | the variables after the handler are the relayed-move transition of those before |
| Client.Game.HandleGameState | public/script.js:280-299 | the variables after the handler are the restart transition of those before |
| Client.Game.HandleRoomCreated | public/script.js:169-178 | the client holds the room code, plays X and has the turn |
| Client.Game.HandleRoomJoined | public/script.js:180-189 | the client holds the room code, plays O and waits |
| Client.Game.HandleQuickMatch | public/script.js:428-446 | the client holds the code and the sent symbol, with the turn exactly when that symbol is X |
| Client.Game.HandlePlayerLeft | public/script.js:392-397 | only `gameActive` changes, to false |
| Client.Game.ResetGame | public/script.js:329-351 | the variables return to the lobby values |
| Client.Game.HandleKeyDown | public/script.js:361-377 | the variables after the handler are the key transition of those before |
| ServerState.EmptyBoard | server.js:90 | a fresh board has elements exactly at indexes 0..8, all empty |
| ServerState.IndexOf | server.js:121 | `indexOf` gives -1 exactly when the value is absent, and otherwise the index of its first occurrence |
| ServerState.SpliceIndexOf | server.js:121-122 | removing at the index `indexOf` found removes the first occurrence and keeps everything else in order |
| ServerState.RemoveValue | server.js:173 | removing a value leaves exactly the other elements, and a list without duplicates stays without duplicates |
| ServerState.Others | server.js:138-139 | the recipients of a move are exactly the room's players other than the sender |
| ServerState.KeptIndices | server.js:138-139 | the indices a relay visits are ascending, each holds a player other than the sender, and every such index is listed |
| ServerState.OthersInOrder | server.js:138-139 | the recipients are the players at exactly those indices, each once, in player order |
| ServerState.FirstRoomWith | server.js:66-72 | the close handler's search finds a room holding the connection with no earlier such room in iteration order, and finds none exactly when no room holds it |
| ServerState.Dead | server.js:80 | the sweep's terminated list is no longer than the tracked list |
| ServerState.Live | server.js:81-82 | the sweep's pinged list is no longer than the tracked list |
| ServerState.DeadMembers | server.js:79-80 | the sweep terminates exactly the tracked connections whose flag is false |
| ServerState.LiveMembers | server.js:81-82 | the sweep pings exactly the tracked connections whose flag is true |
| ServerProperties.SetRoomPreservesInv | server.js:88-91 | storing a room of at most two players keeps the invariant |
| ServerProperties.LeaveRoomPreservesInv | server.js:118-132 | a leave keeps the invariant |
| ServerProperties.CleanupRoomPreservesInv | server.js:170-175 | cleanup keeps the invariant |
| ServerProperties.ClosePreservesInv | server.js:60-74 | the close handler keeps the invariant |
| ServerProperties.LeaveQueuePreservesInv | server.js:61-64 | leaving the quick-play queue keeps the invariant |
| ServerProperties.LeaveFirstRoomPreservesInv | server.js:66-73 | leaving the first room that holds the connection, and deleting it if it is empty, keeps the invariant |
| ServerProperties.QuickPlayPreservesInv | server.js:177-209 | quick play keeps the invariant, the queue never holds more than one connection, and a pairing stores a room of exactly two players |
| ServerProperties.DispatchPreservesInv | server.js:29-84 | every message type, the close event, a new connection, a pong and a liveness sweep keep the invariant, so no room exceeds two players |
| ServerProperties.RunPreservesInv | server.js:29-84 | any sequence of those events keeps the invariant |
| ServerProperties.ReachableStatesAreValid | server.js:26-27 | every state reached from start-up through messages, closes, connections, pongs and sweeps satisfies the invariant, and every room in it holds at most two players |
| ServerProperties.ConnectPreservesInv | server.js:29-30 | a new connection, tracked as alive, keeps the invariant |
| ServerProperties.PongPreservesInv | server.js:31-33 | a pong keeps the invariant |
| ServerProperties.SweepPreservesInv | server.js:78-84 | a sweep keeps the invariant |
| ServerProperties.CreateRoomStartsWithCreator | server.js:86-97 | a created room holds exactly the creator and nine empty cells, the creator alone is told the code, an existing code is overwritten and other rooms are kept |
| ServerProperties.JoinRoomSucceedsIffOpen | server.js:99-116 | a join succeeds exactly when the room exists with fewer than two players: the joiner is appended and told, and the first player is told; otherwise nothing changes and nothing is sent |
| ServerProperties.CreateJoinJoin | server.js:86-116 | after a create, a second connection joins as O and a third join fails without effect |
| ServerProperties.MoveWritesOnlyItsCell | server.js:134-137 | a move writes the sent symbol at the sent array index, with no occupancy, turn or membership check; other cells, the players and other rooms are unchanged; an unknown room means no change |
| ServerProperties.MoveRelayedToOthers | server.js:138-149 | the move is sent once to each player but the sender, in player order, and never to the sender; the old outbox is kept; `isFirstMove` holds exactly when one element is non-empty after the write |
| ServerProperties.FirstMoveOnFreshBoard | server.js:141 | the first write to a fresh board is reported as the first move |
| ServerProperties.SecondMoveIsNotFirst | server.js:141 | a second write at another index is not reported as the first move |
| ServerProperties.RestartClearsBoard | server.js:153-164 | a restart empties the board, keeps the players and sends the empty board to every player in order |
| ServerProperties.LeaveRemovesMember | server.js:118-131 | a member who leaves is removed and the others keep their order; the new first player is told X left exactly when the leaver was at index 0; the room stays even when empty |
| ServerProperties.PlayerLeftNamesX | server.js:128 | the departure message names X exactly when the leaver's index was 0, and O for any other index |
| ServerProperties.LeaveByNonMemberRemovesLast | server.js:121-129 | a leave by a non-member removes the last player and reports O as having left |
| ServerProperties.QuickPlayPairsHead | server.js:177-209 | quick play is first-in first-out: the head of the queue plays X against the newcomer as O, each is told, and the rest of the queue is kept; with nobody waiting the newcomer is queued and told to wait |
| ServerProperties.QuickPlayScenario | server.js:177-209 | with connections a, b and c in turn, a waits, b is paired with a, and c waits alone |
| ServerProperties.CloseCleansUp | server.js:60-74 | a closed connection leaves the queue and the tracked set, and every other queued or tracked connection stays, with its flag; it leaves the first room holding it, which is deleted exactly when it ends up empty, and the new first player is told who left; other rooms are kept, and nothing is sent when no room holds it |
| ServerProperties.LeaveQueueDrops | server.js:61-64 | with at most one connection queued, leaving the queue removes exactly that connection from it, leaves a queue without it unchanged, and changes nothing else |
| ServerProperties.LeaveFirstRoomCleansUp | server.js:66-73 | the connection is spliced out of the first room holding it, that room is deleted exactly when it ends up empty, and every other room, the queue and the tracked set are kept |
| ServerProperties.DeletedCodeIsNotFound | server.js:60-74 | closing the last player of a room frees its code: a later join with it finds no room and changes nothing |
| ServerProperties.OnlyRoomIsFound | server.js:66-72 | when exactly one room holds the connection, the close handler's search finds it |
| ServerProperties.CloseLeavesSurvivor | server.js:60-74 | closing one side of a full room tells the other side which symbol left and keeps the room with the survivor |
| ServerProperties.CloseLastPlayerDeletesRoom | server.js:170-175 | closing the last player of a room deletes the room |
| ServerProperties.CloseBothSides | server.js:60-74 | closing both sides of a two-player room, one after the other, deletes it |
| ServerProperties.SweepTerminatesExactlyDead | server.js:78-84 | a sweep terminates exactly the tracked connections whose flag was false, clears every flag, pings exactly the others, and changes no room, queue or tracked list |
| ServerProperties.PongSparesFromNextSweep | server.js:31-33 | a pong sets only that connection's flag, so the next sweep does not terminate it |
| ServerProperties.DeadWhenAllCleared | server.js:80 | when every flag is false the sweep terminates the whole tracked list |
| ServerProperties.TwoSilentSweepsTerminateAll | server.js:78-84 | two sweeps with no pong in between terminate every tracked connection |
| Server.Coordinator.constructor | server.js:26-27 | the server starts with no rooms, no queue and no connections |
| Server.Coordinator.SetRoom | server.js:88 | `rooms.set` stores the room; a new code goes to the end of the iteration order, and an existing one keeps its place |
| Server.Coordinator.Connect | server.js:29-30 | the state becomes the connect transition of the old state and keeps the invariant |
| Server.Coordinator.HandlePong | server.js:31-33 | the state becomes the pong transition and keeps the invariant |
| Server.Coordinator.HandleCreateRoom | server.js:86-97 | the state becomes the create transition and keeps the invariant |
| Server.Coordinator.HandleJoinRoom | server.js:99-116 | the state becomes the join transition and keeps the invariant |
| Server.Coordinator.HandleLeaveRoom | server.js:118-132 | the state becomes the leave transition and keeps the invariant |
| Server.Coordinator.HandleMove | server.js:134-151 | the state becomes the move transition and keeps the invariant |
| Server.Coordinator.Relay | server.js:138-149 | the loop sends the message to every player other than the mover, in room order, and sends nothing else |
| Server.Coordinator.HandleRestart | server.js:153-164 | the state becomes the restart transition and keeps the invariant |
| Server.Coordinator.Broadcast | server.js:157-162 | the loop sends the message to every player, in room order, and sends nothing else |
| Server.Coordinator.CleanupRoom | server.js:170-175 | the state becomes the cleanup transition and keeps the invariant |
| Server.Coordinator.HandleQuickPlay | server.js:177-209 | the state becomes the quick-play transition and keeps the invariant |
| Server.Coordinator.HandleClose | server.js:60-74 | the state becomes the close transition and keeps the invariant |
| Server.Coordinator.FindRoomOf | server.js:66-73 | the search returns the first room, in iteration order, that holds the connection, or nothing when no room does |
| Server.Coordinator.SweepStep | server.js:78-84 | the state and the terminated list are those of the sweep transition, and the invariant is kept |
| Server.Coordinator.PingOrTerminate | server.js:79-83 | the loop returns the connections whose flag was false, clears every flag and pings the connections whose flag was true, in tracked order |
| AchievementCatalogue.Catalogue | config/achievements.js:1-58 | there are eight entries with pairwise distinct names, every condition is a value of the condition enumeration, and every threshold is positive |
| AchievementCatalogue.EveryConditionUsedOnce | models/Achievement.js:24 | entry k of the catalogue uses value k of the condition enumeration, so each value is used by exactly one entry |
| AchievementService.CheckAchievementCondition | services/achievementService.js:31-50 | the decision fails exactly for `fast_win` on a won game with no moves, and is true only for a condition that has a branch |
| AchievementService.CounterConditionIsThreshold | services/achievementService.js:33-38 | `wins`, `streak` and `games` are earned exactly when their counter reaches the threshold, and stay earned as the counter grows, whatever the game |
| AchievementService.OnlyAWinEarnsGameConditions | services/achievementService.js:39-46 | a game that was not won earns neither `perfect` nor `fast_win` |
| AchievementService.PerfectIsShortWin | services/achievementService.js:39-40 | a won game earns `perfect` exactly when it took at most five moves |
| AchievementService.FastWinIsQuickWin | services/achievementService.js:43-46 | a won game with moves earns `fast_win` exactly when its first and last moves are at most 10000 ms apart |
| AchievementService.UnhandledConditionNeverUnlocks | services/achievementService.js:47-48 | a condition without a branch is never earned |
| AchievementService.ComebackAndSocialNeverUnlock | config/achievements.js:44-57 | the `comeback` and `unique_opponents` entries can never be earned |
| AchievementService.FirstVictoryMeansOneWin | config/achievements.js:2-8 | First Victory is earned exactly when the user has won at least one game |
| AchievementService.Scan | services/achievementService.js:14-22 | every unlocked row comes from the rows read, was not held when the loop started, and has a condition that holds |
| AchievementService.ScanComplete | services/achievementService.js:14-20 | without a fault, every row not held whose condition holds is unlocked, so with `Scan`'s contract the unlocked rows are exactly those |
| AchievementService.ScanFollowsRowOrder | services/achievementService.js:14-22 | the unlocked rows are a subsequence of the rows read, in their order |
| AchievementService.ScanUnlocksEachOnce | services/achievementService.js:15-19 | with primary-key ids, no achievement is unlocked twice |
| AchievementService.ScanStopsAtFault | services/achievementService.js:25-28 | after a fault the later rows change nothing |
| AchievementService.ScanFaultsOnlyOnEmptyWin | services/achievementService.js:43-46 | the loop faults only for a won game without moves |
| AchievementService.RescanUnlocksNothing | services/achievementService.js:15-18 | when the first run did not fault, running the loop again with the same counters and game, against the held set it left or any larger one, unlocks nothing and does not fault |
| AchievementService.RescanRepeatsOnlyTheFault | services/achievementService.js:14-22 | for rows with distinct ids, whether or not the first run faulted, running the loop again against exactly the held set the first run left (its unlocks are written before any fault) unlocks nothing and ends with the same fault as the first run, or none |
| AchievementService.ScanNeverUnlocksUnhandled | services/achievementService.js:14-22 | Comeback King and Social Butterfly are never among the unlocked rows |
| AchievementService.Account.constructor | services/achievementService.js:7-9 | the account holds the counters and achievement ids the user row was loaded with |
| AchievementService.Account.CheckAchievements | services/achievementService.js:5-29 | the held set grows by exactly the ids of the rows the loop unlocks; the result is that list, or the fault that stopped the loop |

## Left out

- Transport, JSON parsing and stringifying, and the express/CORS/static setup are left out. Messages are values in an outbox.
- The client's socket setup is left out. Its move request is recorded in `sent`.
- `generateRoomCode` uses `Math.random` and base-36 formatting. The code is a parameter of the create and quick-play handlers instead. A collision overwrites the existing room, as in the code.
- The 30-second `setInterval` and the client's `setTimeout` calls are left out. A sweep is one step.
- ServerState.Dispatch treats a `Connected` event for a connection already tracked, a `PongFrom` event for one not tracked, and a `Tick` while some tracked connection has no flag as no change. The library never raises these: each connection connects once, pongs only while open, and gets its flag when it connects.
- The `terminate()` calls are left out. The sweep returns the connections it terminates, and their close handlers are separate close events.
- Closing also drops the connection from the tracked set and its flag. The WebSocket library does this, not server.js; the model includes it as the `Untrack` step of `Close`.
- DOM updates, audio, notifications, clipboard and message texts shown in the page are left out. Only the module variables are modelled.
- Database access and `checkDiagonalWins` are not part of this model. The achievement rows and the user's counters are values. `checkDiagonalWins` is a function parameter, and the held set is a field. The class as written defines no `checkDiagonalWins`, so the call would throw; the model assumes it returns normally, and the claims that only a won game without moves faults, and which conditions fail, rest on that assumption.
- services/gameReplayService.js, the other model definitions, db/migrate.js, routes/auth.js, routes/stats.js (including the floating-point `winRate`) and public/service-worker.js are not part of this model.
- Concurrency is left out. Node runs each handler to completion, so each handler is one method.
- Server.Coordinator.HandleMove takes an integer index. A `data.index` that is not a number is not modelled; a canonical numeric string such as "3" acts like the number. Integers outside 0..2^32-2 are modelled as non-element writes that leave the elements unchanged.
- Server.Coordinator.HandleMove computes `isFirstMove` once rather than once per recipient. The board does not change while the relay loop runs, so each recipient gets the same value.
- Client.Game.HandleRemoteMove requires an index below 9. The server only relays indexes its clients sent from the nine cells.
- Client.Game.HandleGameState requires a nine-cell state. The server only sends the fresh nine-cell board.
- Client.Game.HandleQuickMatch requires the symbol X or O. The server only sends these two.
- Client.Game.HandleCellClick takes the cell index the page computed, below 9. The lookup of the clicked element is left out.
- AchievementService.Account.CheckAchievements models timestamps as integer milliseconds.
- AchievementService.Account.CheckAchievements models the fault of reading a missing move as a `Failure` result. The loop stops there and passes the failure on. Achievements added before the fault stay added.
- The error and logging path of `checkAchievements` is left out. It only re-raises the fault.
