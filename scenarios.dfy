/**
 * Whole sessions driven through the server's handlers, one message after
 * another: a round that X wins along the top row and its settlement, a third
 * connection seated as a second O, and the last player leaving.
 */
module Scenarios {
  import opened Board
  import opened Prize
  import opened RoomServer

  /** Connection "a" joins first and "b" second, with these addresses and bets (in lamports). */
  const SEATS: map<ConnId, Player> := map["a" := Player(X, "pk-a"), "b" := Player(O, "pk-b")]
  const ORDER: seq<ConnId> := ["a", "b"]
  const STAKES: map<ConnId, nat> := map["a" := 100, "b" := 200]

  /** The moves of the round, as (connection, index, claimed symbol): X takes 0, 1, 2 while O takes 3, 4. */
  const OPENING: seq<(ConnId, Index, Symbol)> := [("a", 0, X), ("b", 3, O), ("a", 1, X), ("b", 4, O), ("a", 2, X)]

  /** The board after the first `n` moves of the round. */
  function BoardAfter(n: nat): (b: seq<Cell>)
    requires n <= |OPENING|
    ensures |b| == 9
  {
    if n == 0 then EMPTY_BOARD else BoardAfter(n - 1)[OPENING[n - 1].1 := Mark(OPENING[n - 1].2)]
  }

  /** Whose turn it is after `n` accepted moves of a round. */
  function TurnAfter(n: nat): Symbol
  {
    if n % 2 == 0 then X else O
  }

  /** A board with none of the eight lines completed and the last cell empty is still in play. */
  lemma Quiet(b: seq<Cell>)
    requires |b| == 9 && b[8] == Empty
    requires !LineWon(b, 0) && !LineWon(b, 1) && !LineWon(b, 2) && !LineWon(b, 3)
    requires !LineWon(b, 4) && !LineWon(b, 5) && !LineWon(b, 6) && !LineWon(b, 7)
    ensures InPlay(b) && Classify(b) == Ongoing
  {
  }

  /**
   * Move `n` of the round is legal when it is made: the mover's own symbol,
   * that symbol's turn, an empty target. The first four leave the game in
   * play; the fifth completes the top row for X.
   */
  lemma OpeningMove(n: nat)
    requires n < |OPENING|
    ensures var (c, i, s) := OPENING[n];
            && c in SEATS && SEATS[c].symbol == s && s == TurnAfter(n) && Other(s) == TurnAfter(n + 1)
            && BoardAfter(n)[i] == Empty
            && (n + 1 < |OPENING| ==> InPlay(BoardAfter(n + 1)))
            && (n + 1 == |OPENING| ==> Classify(BoardAfter(n + 1)) == Win(X))
  {
    assert BoardAfter(1) == EMPTY_BOARD[0 := Mark(X)];
    if n == 0 {
      Quiet(BoardAfter(1));
    } else if n == 1 {
      Quiet(BoardAfter(2));
    } else if n == 2 {
      Quiet(BoardAfter(3));
    } else if n == 3 {
      Quiet(BoardAfter(4));
    } else {
      Quiet(BoardAfter(4));
      assert LineWon(BoardAfter(5), 0);
      WinBelongsToMover(BoardAfter(4), 2, X);
    }
  }

  /** A fresh server after "a" and then "b" have sent `createRoom`. */
  method TwoSeated() returns (s: Server)
    ensures fresh(s.Repr()) && s.Valid()
    ensures s.View() == Open(SEATS, ORDER, EMPTY_BOARD, map[], X, NO_WINS) && s.bets == STAKES
  {
    s := new Server();
    var x := s.CreateRoom("a", "pk-a", 100);
    var o := s.CreateRoom("b", "pk-b", 200);
  }

  /** Move `n` of the round, one accepted `makeMove` that leaves the game in play. */
  method Play(s: Server, n: nat)
    requires n + 1 < |OPENING|
    requires s.Valid() && s.View() == Open(SEATS, ORDER, BoardAfter(n), map[], TurnAfter(n), NO_WINS) && s.bets == STAKES
    modifies s.Repr()
    ensures s.Valid() && s.Repr() == old(s.Repr()) && s.bets == STAKES
    ensures s.View() == Open(SEATS, ORDER, BoardAfter(n + 1), map[], TurnAfter(n + 1), NO_WINS)
  {
    OpeningMove(n);
    var (c, i, sym) := OPENING[n];
    assert BoardAfter(n + 1) == BoardAfter(n)[i := Mark(sym)];
    var ok, outcome, payout := s.MakeMove(c, i, sym, None, _ => true);
  }

  /** The server after the two joins and the first `n` moves of the round. */
  method Played(n: nat) returns (s: Server)
    requires n < |OPENING|
    ensures fresh(s.Repr()) && s.Valid() && s.bets == STAKES
    ensures s.View() == Open(SEATS, ORDER, BoardAfter(n), map[], TurnAfter(n), NO_WINS)
  {
    if n == 0 {
      s := TwoSeated();
    } else {
      s := Played(n - 1);
      Play(s, n - 1);
    }
  }

  /** The winning move: X's tally goes up, the board is fresh, and settlement is decided. */
  method Finish(s: Server, balance: Option<nat>, validKey: PubKey -> bool) returns (outcome: Outcome, payout: Option<Decision>)
    requires s.Valid() && s.View() == Open(SEATS, ORDER, BoardAfter(4), map[], X, NO_WINS) && s.bets == STAKES
    modifies s.Repr()
    ensures s.Valid() && fresh(s.Repr() - old(s.Repr())) && s.bets == STAKES
    ensures outcome == Win(X) && payout == Some(Decide(ORDER, SEATS, STAKES, X, balance, validKey))
    ensures s.View() == Open(SEATS, ORDER, EMPTY_BOARD, map[], X, Tally(1, 0))
  {
    OpeningMove(4);
    assert PlaceCells(BoardAfter(4), 2, X) == BoardAfter(5);
    assert s.Accepts("a", 2, X);
    ghost var v := s.View();
    var ok;
    ok, outcome, payout := s.MakeMove("a", 2, X, balance, validKey);
    assert ok && outcome == Win(X);
    assert v.players == SEATS && v.order == ORDER && v.wins.Bump(X) == Tally(1, 0);
    assert s.View() == Open(v.players, v.order, EMPTY_BOARD, map[], X, v.wins.Bump(X));
  }

  /**
   * The whole round: X wins, the tally reads one win for X and none for O,
   * the board is empty with X to move, and settlement pays X's address both
   * bets when that address parses and the escrow covers them plus the fee.
   */
  method TopRowWin(balance: Option<nat>, validKey: PubKey -> bool) returns (outcome: Outcome, payout: Option<Decision>, after: View)
    ensures outcome == Win(X)
    ensures after == Open(SEATS, ORDER, EMPTY_BOARD, map[], X, Tally(1, 0))
    ensures payout == Some(if !validKey("pk-a") then Skip(InvalidPubkey)
                           else if balance.None? then Skip(BalanceUnavailable)
                           else if balance.value < 300 + TX_FEE then Skip(InsufficientEscrow)
                           else Transfer("pk-a", 300))
  {
    var s := Played(4);
    outcome, payout := Finish(s, balance, validKey);
    after := s.View();
    TwoSeatSettlement(ORDER, SEATS, STAKES, X, balance, validKey);
  }

  /**
   * A third connection is not turned away: it is seated as a second O, and
   * its move is refused while it is X's turn.
   */
  method ThirdJoiner() returns (third: Symbol, moved: bool, after: View)
    ensures third == O && !moved
    ensures after == Open(SEATS["c" := Player(O, "pk-c")], ORDER + ["c"], EMPTY_BOARD, map[], X, NO_WINS)
  {
    var s := TwoSeated();
    third := s.CreateRoom("c", "pk-c", 100);
    var outcome, payout;
    moved, outcome, payout := s.MakeMove("c", 4, O, None, _ => true);
    after := s.View();
  }

  /**
   * When the only player leaves, the room is destroyed; the next connection
   * to join starts a new room as X with an empty tally.
   */
  method LastLeaves() returns (gone: bool, next: Symbol, after: View)
    ensures gone && next == X
    ensures after == Open(map["b" := Player(X, "pk-b")], ["b"], EMPTY_BOARD, map[], X, NO_WINS)
  {
    var s := new Server();
    var x := s.CreateRoom("a", "pk-a", 100);
    s.Close("a");
    gone := s.activeRoom == null;
    next := s.CreateRoom("b", "pk-b", 50);
    after := s.View();
  }
}
