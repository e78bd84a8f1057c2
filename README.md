# Tic-tac-toe room server with Solana settlement — a Dafny model

The server hosts a single game room, `TIC-TAC-ROOM`, over WebSockets.

- **Joining.** A connection sends `createRoom` with a wallet address and a bet. This creates the room when none exists, binds the connection to it and seats it. The first seat gets X; every later seat gets O.
- **Moving.** A bound connection sends `makeMove` with an index and the symbol it claims. The move is accepted only when:
  - the claimed symbol is the caller's own;
  - it is that symbol's turn;
  - the target reads as free.

  An accepted move writes the mark, passes the turn and runs `checkWinner`.
- **Checking the board.** `checkWinner` scans the eight lines in a fixed order.
  - On a completed line, the owner's win counter goes up, the prize is settled, and the board is reset.
  - On a full board, the board is only reset.
- **Settling.** Settlement looks up two players in the room's key order: the first who holds the winning symbol and the first who does not. It pays the sum of their two bets to the winner's address. It skips the payment when:
  - either player is missing;
  - the address does not parse;
  - the escrow balance query fails;
  - the escrow balance is below the stake plus a 5000-lamport fee.
- **Leaving.** On `close`, a bound connection loses its seat and its bet. The room is destroyed when the last seat goes.

The model has four modules:

- `Board` (`board.dfy`): pure functions for the marks, cells, lines and the classification of a board, plus the win tally.
- `Prize` (`prize.dfy`): pure functions for the first-match lookup over the seating order and the settlement decision.
- `RoomServer` (`server.dfy`): the state the handlers change in place.
  - `Room` is a class holding the seats, their key order, a 9-cell `array`, the turn and the tally.
  - `Server` is a class holding the nullable active room, the bet ledger and the set of connections bound to the room.
  - Each handler is a method whose `ensures` gives the new state as a function of the old one, through the compiled `View` function, a value snapshot of the room.
  - `Server.Valid` is the invariant every handler keeps:
    - a room exists exactly while some connection is bound;
    - the bound connections are exactly the seated ones, and each has a bet;
    - between messages, the board has no completed line and is not full.
- `Scenarios` (`scenarios.dfy`): whole sessions driven through the handlers.

### Behaviour as coded

A reader might expect a two-seat room, a bounds check on the move index, a symbol that stays with its player, and a winner that does not depend on the scan order. The code gives none of these, and the model follows the code:

- **There is no room-full check.** A third joiner is seated as a second O (`Scenarios.ThirdJoiner`). `find` then follows the key order, which the model keeps as `Room.order`.
- **There is no bounds check on the move index.** An index outside 0..8 is "free" until something has been written there. Accepting it passes the turn without touching the nine cells. The model records such writes in `Room.stray`; `resetGame` discards them along with the old board.
- **Re-joining can change a player's symbol.** A connection that sends `createRoom` again keeps its seat position, but its symbol is recomputed from the current seat count.
- **The scan order decides ties, but only in principle.** The first completed line in scan order wins. `Board.WinBelongsToMover` shows that the order cannot matter after an accepted move. Every completed line then passes through the new mark and belongs to the mover.

## Model

| member | source | states |
|---|---|---|
| Board.Other | index.js:74 | the turn always passes to the other symbol |
| Board.LineOwner | index.js:120-121 | a completed line's three cells all hold its owner's mark |
| Board.FirstWon | index.js:119-132 | returns the first completed line at or after `k` in scan order, with no completed line between `k` and it; returns none exactly when no line from `k` on is completed |
| Board.Classify | index.js:111-138 | Win exactly when some line is completed, and the winner owns the first completed line in scan order; Draw exactly when no line is completed and no cell is empty; Ongoing exactly when neither holds |
| Board.EmptyBoardOngoing | index.js:44-45 | a freshly filled board has nine cells, is in play, and classifies as Ongoing |
| Board.OnlyLineWins | index.js:113-131 | for each of the eight lines, a board holding one symbol on exactly that line and nothing else is a win for that symbol |
| Board.WinBelongsToMover | index.js:119-131 | after a mark lands on a board with no completed line, every completed line contains the new cell and belongs to the mover, so the opponent can never be declared winner |
| Board.Tally.Bump | index.js:122 | the winner's counter goes up by one and the other counter is unchanged |
| Board.BumpGrows | index.js:122 | a bumped tally dominates the old one, differs from it, and holds exactly one more win in total |
| Prize.FindPlayer | index.js:162-163 | returns a player that is the first match in key order, or nothing exactly when no seated player matches |
| Prize.FindInPair | index.js:162-163 | with two seats of different symbols, `find` returns the one seat that matches |
| Prize.Decide | index.js:160-191 | skips for a missing player exactly when nobody, or everybody, holds the winning symbol; a bad address, a failed balance query or a short escrow skips only after both lookups succeed, and the last two only after the address parses; a transfer goes to the first winner's valid address, pays the two bets' sum, and leaves the fee in escrow |
| Prize.TwoSeatSettlement | index.js:165-191 | in a two-seat room, settlement pays the winner both bets exactly when the address parses, the balance query answers and balance ≥ stake + 5000, and otherwise names the reason for skipping |
| RoomServer.Without | index.js:83 | deleting a key leaves exactly the other keys, still distinct, and does nothing when the key is absent |
| RoomServer.WithoutAt | index.js:83 | deleting a key held once, at position `k`, leaves the keys before and after it in their order, which the next `find` then follows |
| RoomServer.Joined | index.js:40-60 | a join yields an open room in which the joiner is seated; a new room starts with only the joiner, an empty board, X to move and no wins; an existing room keeps its board, turn and tally |
| RoomServer.Room.constructor | index.js:41-47 | a new room: fixed id, no seats, nine empty cells, X to move, zero wins |
| RoomServer.Room.Seat | index.js:52-58 | X when no seat is taken, otherwise O; the seat is added at the end of the key order unless it is already present |
| RoomServer.Room.Unseat | index.js:83 | the seat leaves the map and the key order; nothing else changes |
| RoomServer.Room.TryMove | index.js:68-74 | accepted exactly when the symbol is the caller's own, it is that symbol's turn and the target reads as free; an accepted move writes the mark and passes the turn; a rejected one changes nothing; an occupied cell is never overwritten |
| RoomServer.Room.Reset | index.js:153-155 | a new empty board with X to move; seats and tally kept |
| RoomServer.Room.Scan | index.js:112-137 | the loop over the lines returns exactly `Classify` of the board |
| RoomServer.Server.constructor | index.js:29-30 | no room, no bets, nobody bound |
| RoomServer.Server.CreateRoom | index.js:39-64 | the room after the call is `Joined(old room, caller, player)`; the caller gets X exactly when there was no room; the bet is recorded and the caller bound; the invariant is kept |
| RoomServer.Server.Join | index.js:51-60 | on an existing room: X exactly when no seat is taken; the new view is `Joined`; the bet is recorded and the caller bound |
| RoomServer.Server.CheckWinner | index.js:111-138 | the outcome is `Classify` of the board; a win bumps the winner, computes the settlement decision and resets the board; a draw only resets; an ongoing game is left as it was |
| RoomServer.Server.MakeMove | index.js:66-78 | accepted exactly when the caller is bound and the guard holds; a rejected move changes nothing; an accepted move is followed by the verdict on the new board, and a win always goes to the mover; the invariant is kept |
| RoomServer.Server.Close | index.js:81-92 | a bound caller loses its seat, bet and binding; the room is destroyed exactly when the caller held the last seat; an unbound caller changes nothing |
| Scenarios.OpeningMove | index.js:68-72 | each move of the sample round is legal when made; the first four leave the game in play and the fifth completes the top row for X |
| Scenarios.TopRowWin | index.js:39-191 | two joins, then X takes 0, 1, 2 while O takes 3, 4. Result: X wins; the tally is {X:1, O:0}; the board is empty with X to move; settlement pays 300 lamports to X's address unless the address, the balance query or the balance fails |
| Scenarios.ThirdJoiner | index.js:51-72 | a third joiner is seated as O alongside the first two, whose seats are unchanged; its move on X's turn is refused |
| Scenarios.LastLeaves | index.js:39-92 | the sole player leaving destroys the room; the next joiner starts a new room as X with zero wins |

## Left out

- The transport is not modelled, because it has no effect on room state:
  - Express, the HTTP server and the WebSocket server (index.js:11-13, 203-205);
  - connection ids from `uuid` (index.js:33);
  - JSON parsing (index.js:37);
  - `ws.send`, `broadcastRoomState` and `broadcastGameOver` (index.js:62-63, 75, 88, 95-109, 128, 135, 139-151);
  - the one-second delayed rebroadcast after a reset (index.js:157).
- Loading the escrow key from the environment (index.js:18-27) is left out; startup either succeeds or exits.
- The ledger is not modelled:
  - the `getBalance` query becomes the `balance` parameter, `None` when the query fails. Its error reaches the catch in `checkWinner` (index.js:125-127), so settlement is abandoned while the tally, broadcast and reset go ahead;
  - the `PublicKey` constructor's acceptance of an address becomes the `validKey` parameter;
  - building, signing and confirming the transfer is left out, since `Decide` returns the transfer to be made.
- Failures of the transfer are only logged in the source (index.js:195-200) and change no state, so they are left out.
- Logging (all `console` calls) is left out.
- Bets are taken as natural numbers of lamports. `parseFloat` and the multiplication by `LAMPORTS_PER_SOL` (index.js:60) are left out, and so are fractional, negative and `NaN` bets.
- The player record's own copy of the bet in SOL (index.js:57) is left out, because nothing reads it.
- Message fields are typed more tightly than in the source:
  - the move index is an integer, so a fractional or string index is not covered;
  - the claimed symbol is X or O; any other value fails the first conjunct of the guard and is refused anyway.
- RoomServer.Server.MakeMove: each handler runs to completion before the next message, so the interleaving at the `await` inside `checkWinner` (index.js:124) is not modelled. In the source, a second move on the still-won board can be accepted while settlement is pending, which could count a win twice and settle twice.
- Connection ids are uuids, never canonical numeric strings, so the JavaScript key order of `players` is its insertion order. The model relies on this in `Room.order`.
- The model assumes `ws.roomId` is set only by `createRoom` and is kept in `Server.bound`. Closing an unbound connection is a no-op.
- test.js is not part of this model. It only decodes the escrow key and starts an unrelated HTTP listener.
