/**
 * The rules of the game itself: the two marks, the nine cells, the eight
 * winning lines and the classification of a board into a win, a draw or a
 * game still in progress, together with the per-symbol win tally.
 */
module Board {

  datatype Option<T> = None | Some(value: T)

  /** The two marks a player can hold ("X" and "O" in the wire protocol). */
  datatype Symbol = X | O

  /** The symbol that moves after `s`. */
  function Other(s: Symbol): (t: Symbol)
    ensures t != s
  {
    if s == X then O else X
  }

  /** A cell is empty (`null` on the wire) or holds a mark. */
  datatype Cell = Empty | Mark(sym: Symbol)

  type Index = i: int | 0 <= i < 9

  /** A fresh board: nine empty cells. */
  const EMPTY_BOARD: seq<Cell> := [Empty, Empty, Empty, Empty, Empty, Empty, Empty, Empty, Empty]

  /** The eight winning triples, in the order the server scans them: rows, columns, diagonals. */
  const LINES: seq<(Index, Index, Index)> := [
    (0, 1, 2), (3, 4, 5), (6, 7, 8),
    (0, 3, 6), (1, 4, 7), (2, 5, 8),
    (0, 4, 8), (2, 4, 6)
  ]

  /** Line `k` is completed: its first cell is non-empty and the other two equal it. */
  predicate LineWon(b: seq<Cell>, k: nat)
    requires |b| == 9 && k < |LINES|
  {
    var (p, q, r) := LINES[k];
    b[p] != Empty && b[p] == b[q] && b[p] == b[r]
  }

  /** The symbol that occupies line `k` (meaningful when the line is won). */
  function LineOwner(b: seq<Cell>, k: nat): (s: Symbol)
    requires |b| == 9 && k < |LINES| && LineWon(b, k)
    ensures b[LINES[k].0] == Mark(s) && b[LINES[k].1] == Mark(s) && b[LINES[k].2] == Mark(s)
  {
    b[LINES[k].0].sym
  }

  predicate NoLineWon(b: seq<Cell>)
    requires |b| == 9
  {
    forall k :: 0 <= k < |LINES| ==> !LineWon(b, k)
  }

  /** Every cell holds a mark. */
  predicate Full(b: seq<Cell>)
  {
    forall i :: 0 <= i < |b| ==> b[i] != Empty
  }

  /** The first completed line at position `k` or later, in scan order. */
  function FirstWon(b: seq<Cell>, k: nat): (r: Option<nat>)
    requires |b| == 9 && k <= |LINES|
    ensures r.Some? ==> k <= r.value < |LINES| && LineWon(b, r.value)
    ensures r.Some? ==> forall j :: k <= j < r.value ==> !LineWon(b, j)
    ensures r.None? <==> forall j :: k <= j < |LINES| ==> !LineWon(b, j)
    decreases |LINES| - k
  {
    if k == |LINES| then None
    else if LineWon(b, k) then Some(k)
    else FirstWon(b, k + 1)
  }

  /** Play can go on: no completed line and at least one empty cell. */
  predicate InPlay(b: seq<Cell>)
    requires |b| == 9
  {
    NoLineWon(b) && !Full(b)
  }

  datatype Outcome = Win(winner: Symbol) | Draw | Ongoing

  /**
   * The verdict on a board: the owner of the first completed line in scan
   * order; otherwise a draw when no cell is empty; otherwise the game goes on.
   */
  function Classify(b: seq<Cell>): (o: Outcome)
    requires |b| == 9
    ensures o.Win? <==> !NoLineWon(b)
    ensures o.Win? ==> exists k :: 0 <= k < |LINES| && LineWon(b, k) && LineOwner(b, k) == o.winner
                                   && forall j :: 0 <= j < k ==> !LineWon(b, j)
    ensures o == Draw <==> NoLineWon(b) && Full(b)
    ensures o == Ongoing <==> InPlay(b)
  {
    match FirstWon(b, 0)
    case Some(k) => Win(LineOwner(b, k))
    case None => if Full(b) then Draw else Ongoing
  }

  /** A new game is in progress. */
  lemma EmptyBoardOngoing()
    ensures |EMPTY_BOARD| == 9 && InPlay(EMPTY_BOARD) && Classify(EMPTY_BOARD) == Ongoing
  {
    assert EMPTY_BOARD[0] == Empty;
  }

  /** The board with exactly line `k` filled with `s` and every other cell empty. */
  function OnlyLine(k: nat, s: Symbol): (b: seq<Cell>)
    requires k < |LINES|
    ensures |b| == 9
  {
    seq(9, i requires 0 <= i < 9 =>
      if i == LINES[k].0 || i == LINES[k].1 || i == LINES[k].2 then Mark(s) else Empty)
  }

  /** Filling exactly one winning line with one symbol, all else empty, is a win for that symbol. */
  lemma OnlyLineWins(k: nat, s: Symbol)
    requires k < |LINES|
    ensures Classify(OnlyLine(k, s)) == Win(s)
  {
  }

  /**
   * After a mark `s` lands on an empty cell `i` of a board with no completed
   * line, every completed line passes through `i` and belongs to `s`: the
   * scan order of the lines cannot change who wins.
   */
  lemma WinBelongsToMover(b: seq<Cell>, i: Index, s: Symbol)
    requires |b| == 9 && InPlay(b)
    ensures forall k :: 0 <= k < |LINES| && LineWon(b[i := Mark(s)], k) ==>
              (i == LINES[k].0 || i == LINES[k].1 || i == LINES[k].2) && LineOwner(b[i := Mark(s)], k) == s
    ensures Classify(b[i := Mark(s)]) != Win(Other(s))
  {
    var b' := b[i := Mark(s)];
    forall k | 0 <= k < |LINES| && LineWon(b', k)
      ensures (i == LINES[k].0 || i == LINES[k].1 || i == LINES[k].2) && LineOwner(b', k) == s
    {
      assert !LineWon(b, k);
    }
    if Classify(b').Win? {
      var o := Classify(b');
      var m :| 0 <= m < |LINES| && LineWon(b', m) && LineOwner(b', m) == o.winner
               && forall j :: 0 <= j < m ==> !LineWon(b', j);
    }
  }

  /** The win counters kept per room: `wins: { X, O }`. */
  datatype Tally = Tally(x: nat, o: nat) {

    function Of(s: Symbol): nat {
      if s == X then x else o
    }

    /** One more win for `s`; the other counter is untouched. */
    function Bump(s: Symbol): (t: Tally)
      ensures t.Of(s) == Of(s) + 1
      ensures t.Of(Other(s)) == Of(Other(s))
    {
      if s == X then Tally(x + 1, o) else Tally(x, o + 1)
    }

    /** Counters never go down: `this` is `t` with zero or more wins added. */
    predicate AtMost(t: Tally) {
      x <= t.x && o <= t.o
    }
  }

  const NO_WINS := Tally(0, 0)

  /** Bumping a tally only increases it, and is the only change a game end makes. */
  lemma BumpGrows(t: Tally, s: Symbol)
    ensures t.AtMost(t.Bump(s)) && t.Bump(s) != t
    ensures t.Bump(s).x + t.Bump(s).o == t.x + t.o + 1
  {
  }
}
