/**
 * The single game room and the server state around it: the nullable active
 * room, the global bet ledger and the connections bound to the room. Each
 * method is one message handler (`createRoom`, `makeMove`, `close`) or one of
 * the helpers they call (`checkWinner`, `resetGame`); sockets, broadcasts and
 * timers are left out, and each handler runs to completion before the next.
 */
module RoomServer {
  import opened Board
  import opened Prize

  /** The fixed id of the one room the server hosts. */
  const ROOM_ID: string := "TIC-TAC-ROOM"

  predicate Distinct(s: seq<ConnId>)
  {
    forall i, j :: 0 <= i < j < |s| ==> s[i] != s[j]
  }

  /** `s` with `c` taken out and the rest in place: `delete players[id]` on the seating order. */
  function Without(s: seq<ConnId>, c: ConnId): (r: seq<ConnId>)
    ensures forall x :: x in r <==> x in s && x != c
    ensures Distinct(s) ==> Distinct(r)
    ensures c !in s ==> r == s
  {
    if s == [] then []
    else if s[0] == c then Without(s[1..], c)
    else
      var rest := Without(s[1..], c);
      assert Distinct(s) ==> s[0] !in s[1..];
      [s[0]] + rest
  }

  /** Taking out the one occurrence of `c`, at `k`, leaves the keys before and after it in their order. */
  lemma {:induction false} WithoutAt(s: seq<ConnId>, c: ConnId, k: nat)
    requires k < |s| && s[k] == c
    requires forall i :: 0 <= i < |s| && i != k ==> s[i] != c
    ensures Without(s, c) == s[..k] + s[k + 1..]
  {
    if k == 0 {
      assert c !in s[1..];
      assert s[1..] == s[..0] + s[1..];
    } else {
      WithoutAt(s[1..], c, k - 1);
      assert s[..k] == [s[0]] + s[1..][..k - 1];
      assert s[k + 1..] == s[1..][k..];
    }
  }

  /**
   * The target of a move reads as free (`!board[index]`): an empty cell, or
   * for an index outside the nine cells, a property never written.
   */
  predicate Free(cells: seq<Cell>, stray: map<int, Symbol>, index: int)
    requires |cells| == 9
  {
    if 0 <= index < 9 then cells[index] == Empty else index !in stray
  }

  /**
   * The move guard: the claimed symbol is the caller's own, it is that
   * symbol's turn, and the target reads as free. There is no bounds check.
   */
  predicate MoveAllowed(mine: Symbol, claimed: Symbol, turn: Symbol,
                        cells: seq<Cell>, stray: map<int, Symbol>, index: int)
    requires |cells| == 9
  {
    mine == claimed && claimed == turn && Free(cells, stray, index)
  }

  /** The nine cells after `board[index] = s`: an index outside them leaves the cells alone. */
  function PlaceCells(cells: seq<Cell>, index: int, s: Symbol): seq<Cell>
    requires |cells| == 9
  {
    if 0 <= index < 9 then cells[index := Mark(s)] else cells
  }

  /** The out-of-range writes after `board[index] = s`. */
  function PlaceStray(stray: map<int, Symbol>, index: int, s: Symbol): map<int, Symbol>
  {
    if 0 <= index < 9 then stray else stray[index := s]
  }

  /** The room as seen from outside: absent, or its players, board, turn and tally. */
  datatype View =
    | NoRoom
    | Open(players: map<ConnId, Player>, order: seq<ConnId>, cells: seq<Cell>,
           stray: map<int, Symbol>, turn: Symbol, wins: Tally)

  /**
   * The room after connection `c` joins as `p`: a new room holding only `c`
   * when there was none, otherwise the same room with `c` (re)seated, placed
   * last in seating order unless it was already seated.
   */
  function Joined(v: View, c: ConnId, p: Player): (w: View)
    ensures w.Open? && w.players == (if v.Open? then v.players else map[])[c := p]
    ensures v.NoRoom? ==> w.order == [c] && w.cells == EMPTY_BOARD && w.stray == map[] && w.turn == X && w.wins == NO_WINS
    ensures v.Open? ==> w.cells == v.cells && w.stray == v.stray && w.turn == v.turn && w.wins == v.wins
  {
    if v.NoRoom? then Open(map[c := p], [c], EMPTY_BOARD, map[], X, NO_WINS)
    else Open(v.players[c := p], if c in v.players then v.order else v.order + [c],
              v.cells, v.stray, v.turn, v.wins)
  }

  class Room {
    const id: string
    /** Seated players by connection id. */
    var players: map<ConnId, Player>
    /** The insertion order of the keys of `players`, which `find` follows. */
    var order: seq<ConnId>
    var board: array<Cell>
    /** Writes the move handler made at indices outside 0..8 since the last reset. */
    var stray: map<int, Symbol>
    var currentPlayer: Symbol
    var wins: Tally

    ghost predicate Valid()
      reads this
    {
      && board.Length == 9
      && Distinct(order)
      && (forall c :: c in order <==> c in players)
      && (forall i :: i in stray ==> !(0 <= i < 9))
    }

    /** The room as `createRoom` makes it when none exists. */
    constructor ()
      ensures Valid() && fresh(board)
      ensures id == ROOM_ID && players == map[] && order == []
      ensures board[..] == EMPTY_BOARD && stray == map[] && currentPlayer == X && wins == NO_WINS
    {
      id := ROOM_ID;
      players := map[];
      order := [];
      board := new Cell[9](_ => Empty);
      stray := map[];
      currentPlayer := X;
      wins := NO_WINS;
      new;
      assert board[..] == EMPTY_BOARD;
    }

    /** Seats connection `c`: X when nobody is seated, O otherwise, whatever the count. */
    method Seat(c: ConnId, pubkey: PubKey) returns (symbol: Symbol)
      requires Valid()
      modifies this
      ensures Valid() && board == old(board)
      ensures symbol == (if old(order) == [] then X else O)
      ensures players == old(players)[c := Player(symbol, pubkey)]
      ensures order == if c in old(players) then old(order) else old(order) + [c]
      ensures stray == old(stray) && currentPlayer == old(currentPlayer) && wins == old(wins)
    {
      symbol := if |order| == 0 then X else O;
      players := players[c := Player(symbol, pubkey)];
      if c !in order {
        order := order + [c];
      }
    }

    /** Removes connection `c` from the seats. */
    method Unseat(c: ConnId)
      requires Valid()
      modifies this
      ensures Valid() && board == old(board)
      ensures players == old(players) - {c} && order == Without(old(order), c)
      ensures stray == old(stray) && currentPlayer == old(currentPlayer) && wins == old(wins)
    {
      players := players - {c};
      order := Without(order, c);
    }

    /**
     * The guarded write of the move handler: on acceptance the target takes
     * the symbol and the turn passes to the other symbol; on rejection
     * nothing changes. A marked cell is never overwritten.
     */
    method TryMove(c: ConnId, index: int, claimed: Symbol) returns (accepted: bool)
      requires Valid() && c in players
      modifies this, board
      ensures Valid() && board == old(board)
      ensures accepted <==> MoveAllowed(old(players[c].symbol), claimed, old(currentPlayer),
                                        old(board[..]), old(stray), index)
      ensures accepted ==> board[..] == PlaceCells(old(board[..]), index, claimed)
                           && stray == PlaceStray(old(stray), index, claimed)
                           && currentPlayer == Other(claimed)
      ensures !accepted ==> board[..] == old(board[..]) && stray == old(stray)
                            && currentPlayer == old(currentPlayer)
      ensures forall i :: 0 <= i < 9 && i != index ==> board[i] == old(board[i])
      ensures forall i :: 0 <= i < 9 && old(board[i]) != Empty ==> board[i] == old(board[i])
      ensures players == old(players) && order == old(order) && wins == old(wins)
    {
      var free := if 0 <= index < 9 then board[index] == Empty else index !in stray;
      accepted := players[c].symbol == claimed && claimed == currentPlayer && free;
      if accepted {
        if 0 <= index < 9 {
          board[index] := Mark(claimed);
        } else {
          stray := stray[index := claimed];
        }
        currentPlayer := Other(claimed);
      }
    }

    /** `resetGame`: a fresh empty board and X to move; seats and tally stay. */
    method Reset()
      requires Valid()
      modifies this
      ensures Valid() && fresh(board)
      ensures board[..] == EMPTY_BOARD && stray == map[] && currentPlayer == X
      ensures players == old(players) && order == old(order) && wins == old(wins)
    {
      board := new Cell[9](_ => Empty);
      stray := map[];
      currentPlayer := X;
      assert board[..] == EMPTY_BOARD;
    }

    /**
     * The scan of `checkWinner`: the lines in order, the first completed one
     * wins; failing that, a full board is a draw.
     */
    method Scan() returns (o: Outcome)
      requires Valid()
      ensures o == Classify(board[..])
    {
      var k := 0;
      while k < |LINES|
        invariant 0 <= k <= |LINES|
        invariant forall j :: 0 <= j < k ==> !LineWon(board[..], j)
      {
        var (p, q, r) := LINES[k];
        if board[p] != Empty && board[p] == board[q] && board[p] == board[r] {
          assert LineWon(board[..], k);
          assert FirstWon(board[..], 0) == Some(k);
          return Win(board[p].sym);
        }
        k := k + 1;
      }
      if forall i :: 0 <= i < 9 ==> board[i] != Empty {
        o := Draw;
      } else {
        o := Ongoing;
      }
    }
  }

  /** The process-wide state: `activeRoom`, `bets`, and the connections whose `roomId` is set. */
  class Server {
    var activeRoom: Room?
    /** Bets in lamports by connection id. */
    var bets: map<ConnId, nat>
    /** Open connections that have joined the room. */
    var bound: set<ConnId>

    ghost function Repr(): set<object>
      reads this, activeRoom
    {
      if activeRoom == null then {this}
      else var room: Room := activeRoom; {this, room, room.board}
    }

    function View(): View
      reads this, activeRoom, Repr()
    {
      if activeRoom == null then NoRoom
      else Open(activeRoom.players, activeRoom.order, activeRoom.board[..],
                activeRoom.stray, activeRoom.currentPlayer, activeRoom.wins)
    }

    ghost function Players(): map<ConnId, Player>
      reads this, activeRoom
    {
      if activeRoom == null then map[] else activeRoom.players
    }

    /**
     * The bookkeeping that every handler keeps: a room exists exactly while
     * someone is bound to it, the bound connections are the seated players,
     * and every seated player has a bet.
     */
    ghost predicate Seated()
      reads this, activeRoom
    {
      && (activeRoom == null ==> bound == {} && bets == map[])
      && (activeRoom != null ==>
            && activeRoom.Valid() && activeRoom.id == ROOM_ID
            && bound != {} && bound == activeRoom.players.Keys && bets.Keys == bound)
    }

    /** Between handlers, the board of a live room holds neither a completed line nor a full board. */
    ghost predicate Valid()
      reads this, activeRoom, Repr()
    {
      Seated() && (activeRoom != null ==> InPlay(activeRoom.board[..]))
    }

    /** The move handler's guard for connection `c`. */
    ghost predicate Accepts(c: ConnId, index: int, claimed: Symbol)
      reads this, activeRoom, Repr()
      requires Valid()
    {
      c in bound && MoveAllowed(activeRoom.players[c].symbol, claimed, activeRoom.currentPlayer,
                                activeRoom.board[..], activeRoom.stray, index)
    }

    constructor ()
      ensures Valid() && activeRoom == null && bets == map[] && bound == {}
    {
      activeRoom := null;
      bets := map[];
      bound := {};
    }

    /**
     * The `createRoom` handler: makes the room when none exists, then binds
     * the connection, seats it and records its bet.
     */
    method CreateRoom(c: ConnId, pubkey: PubKey, bet: nat) returns (symbol: Symbol)
      requires Valid()
      modifies this, activeRoom
      ensures Valid() && activeRoom != null && fresh(Repr() - old(Repr()))
      ensures old(activeRoom) != null ==> activeRoom == old(activeRoom)
      ensures symbol == X <==> old(activeRoom) == null
      ensures View() == Joined(old(View()), c, Player(symbol, pubkey))
      ensures bets == old(bets)[c := bet] && bound == old(bound) + {c}
    {
      if activeRoom == null {
        activeRoom := new Room();
        EmptyBoardOngoing();
      }
      symbol := Join(c, pubkey, bet);
    }

    /**
     * The rest of the `createRoom` handler, once a room exists: bind the
     * connection, seat it (X only into an empty room, O otherwise, with no
     * limit on the number of seats) and record the bet.
     */
    method Join(c: ConnId, pubkey: PubKey, bet: nat) returns (symbol: Symbol)
      requires activeRoom != null && activeRoom.Valid() && activeRoom.id == ROOM_ID
      requires bound == activeRoom.players.Keys && bets.Keys == bound && InPlay(activeRoom.board[..])
      modifies this, activeRoom
      ensures Valid() && activeRoom == old(activeRoom) && Repr() == old(Repr())
      ensures symbol == (if old(activeRoom.order) == [] then X else O)
      ensures View() == Joined(old(View()), c, Player(symbol, pubkey))
      ensures bets == old(bets)[c := bet] && bound == old(bound) + {c}
    {
      var room := activeRoom;
      ghost var cells := room.board[..];
      symbol := room.Seat(c, pubkey);
      assert room.board[..] == cells;
      bound := bound + {c};
      bets := bets[c := bet];
      assert room.Valid() && room.id == ROOM_ID && bound != {} && room.players.Keys == bound == bets.Keys;
    }

    /**
     * `checkWinner` on the board left by an accepted move: a win bumps the
     * winner's tally, yields the settlement decision and resets the board; a
     * draw only resets; otherwise nothing changes.
     */
    method CheckWinner(balance: Option<nat>, validKey: PubKey -> bool) returns (outcome: Outcome, payout: Option<Decision>)
      requires Seated() && activeRoom != null
      modifies activeRoom
      ensures Valid() && activeRoom == old(activeRoom) && fresh(Repr() - old(Repr()))
      ensures bets == old(bets) && bound == old(bound)
      ensures outcome == Classify(old(activeRoom.board[..]))
      ensures outcome == Ongoing ==> Repr() == old(Repr())
      ensures var v := old(View());
              && View() == (if outcome == Ongoing then v
                            else Open(v.players, v.order, EMPTY_BOARD, map[], X,
                                      if outcome.Win? then v.wins.Bump(outcome.winner) else v.wins))
              && payout == (if outcome.Win? then Some(Decide(v.order, v.players, bets, outcome.winner, balance, validKey))
                            else None)
    {
      var room := activeRoom;
      outcome := room.Scan();
      match outcome
      case Win(s) =>
        room.wins := room.wins.Bump(s);
        payout := Some(Decide(room.order, room.players, bets, s, balance, validKey));
        room.Reset();
        EmptyBoardOngoing();
      case Draw =>
        payout := None;
        room.Reset();
        EmptyBoardOngoing();
      case Ongoing =>
        payout := None;
    }

    /**
     * The `makeMove` handler: ignored for an unbound connection; otherwise the
     * guarded write, then `checkWinner`. A win always goes to the mover, since
     * the board before the move held no completed line.
     */
    method MakeMove(c: ConnId, index: int, claimed: Symbol, balance: Option<nat>, validKey: PubKey -> bool)
      returns (accepted: bool, outcome: Outcome, payout: Option<Decision>)
      requires Valid()
      modifies Repr()
      ensures Valid() && activeRoom == old(activeRoom) && fresh(Repr() - old(Repr()))
      ensures bets == old(bets) && bound == old(bound)
      ensures accepted <==> old(Accepts(c, index, claimed))
      ensures !accepted ==> View() == old(View()) && outcome == Ongoing && payout == None
      ensures outcome == Ongoing ==> Repr() == old(Repr())
      ensures accepted ==>
                var v := old(View());
                var placed := PlaceCells(v.cells, index, claimed);
                && outcome == Classify(placed)
                && (outcome.Win? ==> outcome.winner == claimed)
                && View() == (if outcome == Ongoing
                              then v.(cells := placed, stray := PlaceStray(v.stray, index, claimed), turn := Other(claimed))
                              else Open(v.players, v.order, EMPTY_BOARD, map[], X,
                                        if outcome.Win? then v.wins.Bump(claimed) else v.wins))
                && payout == (if outcome.Win? then Some(Decide(v.order, v.players, bets, claimed, balance, validKey))
                              else None)
    {
      if c !in bound {
        return false, Ongoing, None;
      }
      var room := activeRoom;
      ghost var before := room.board[..];
      accepted := room.TryMove(c, index, claimed);
      if !accepted {
        return false, Ongoing, None;
      }
      if 0 <= index < 9 {
        WinBelongsToMover(before, index, claimed);
      }
      outcome, payout := CheckWinner(balance, validKey);
    }

    /**
     * The `close` handler: for a bound connection, drops its seat and its
     * bet, and destroys the room when no seat is left.
     */
    method Close(c: ConnId)
      requires Valid()
      modifies this, activeRoom
      ensures Valid() && fresh(Repr() - old(Repr()))
      ensures c !in old(bound) ==> View() == old(View()) && bets == old(bets) && bound == old(bound)
      ensures c in old(bound) ==> bets == old(bets) - {c} && bound == old(bound) - {c}
      ensures c in old(bound) ==> (activeRoom == null <==> old(Players()).Keys == {c})
      ensures c in old(bound) && activeRoom != null ==>
                var v := old(View());
                activeRoom == old(activeRoom) && View() == v.(players := v.players - {c}, order := Without(v.order, c))
    {
      if c in bound && activeRoom != null {
        activeRoom.Unseat(c);
        bets := bets - {c};
        bound := bound - {c};
        if |activeRoom.order| == 0 {
          activeRoom := null;
        } else {
          assert activeRoom.order[0] in bound;
        }
      }
    }
  }
}
