/**
 * The payout decision made when a round ends with a winner: who is paid,
 * how much, and the guards that make the server skip the transfer. The
 * ledger itself (key parsing, balance query, the transfer) is outside the
 * model; the escrow balance (`None` when its query fails) and the key check
 * arrive as inputs.
 */
module Prize {
  import opened Board

  /** A connection id (a uuid string on the server). */
  type ConnId = string

  /** A wallet address as the client sent it, not yet parsed. */
  type PubKey = string

  /** A seated player: the mark assigned at join and the payout address. */
  datatype Player = Player(symbol: Symbol, pubkey: PubKey)

  /** Lamports kept back from the escrow balance for the transaction fee. */
  const TX_FEE: nat := 5000

  /** The player seated at position `i` matches: holds `s` (when `same`) or not (when not `same`). */
  predicate MatchesAt(order: seq<ConnId>, players: map<ConnId, Player>, s: Symbol, same: bool, i: nat)
    requires i < |order| && order[i] in players
  {
    (players[order[i]].symbol == s) == same
  }

  /** `c` is the first matching player in seating order. */
  ghost predicate IsFirst(order: seq<ConnId>, players: map<ConnId, Player>, s: Symbol, same: bool, c: ConnId)
    requires forall c :: c in order ==> c in players
  {
    exists i :: 0 <= i < |order| && order[i] == c && MatchesAt(order, players, s, same, i)
                && forall j :: 0 <= j < i ==> !MatchesAt(order, players, s, same, j)
  }

  /** A first match in the tail of the seating order is the first match overall when the head does not match. */
  lemma FirstShifts(order: seq<ConnId>, players: map<ConnId, Player>, s: Symbol, same: bool, c: ConnId)
    requires |order| > 0 && forall c :: c in order ==> c in players
    requires !MatchesAt(order, players, s, same, 0)
    requires forall c :: c in order[1..] ==> c in players
    requires IsFirst(order[1..], players, s, same, c)
    ensures IsFirst(order, players, s, same, c)
  {
    var i :| 0 <= i < |order[1..]| && order[1..][i] == c && MatchesAt(order[1..], players, s, same, i)
             && forall j :: 0 <= j < i ==> !MatchesAt(order[1..], players, s, same, j);
    assert order[i + 1] == c && MatchesAt(order, players, s, same, i + 1);
    forall j | 0 <= j < i + 1 ensures !MatchesAt(order, players, s, same, j) {
      if j > 0 {
        assert !MatchesAt(order[1..], players, s, same, j - 1);
      }
    }
  }

  /**
   * The first player in seating order whose symbol is `s` (when `same`) or is
   * not `s` (when not `same`): `Object.values(players).find(...)`.
   */
  function FindPlayer(order: seq<ConnId>, players: map<ConnId, Player>, s: Symbol, same: bool): (r: Option<ConnId>)
    requires forall c :: c in order ==> c in players
    ensures r.Some? ==> r.value in order && IsFirst(order, players, s, same, r.value)
    ensures r.None? <==> forall c :: c in order ==> (players[c].symbol == s) != same
  {
    if order == [] then None
    else if MatchesAt(order, players, s, same, 0) then
      assert order[0] in order;
      Some(order[0])
    else
      assert forall c :: c in order[1..] ==> c in order;
      assert forall c :: c in order ==> c == order[0] || c in order[1..];
      var r := FindPlayer(order[1..], players, s, same);
      if r.Some? then
        FirstShifts(order, players, s, same, r.value);
        r
      else r
  }

  datatype SkipReason = MissingPlayer | InvalidPubkey | BalanceUnavailable | InsufficientEscrow

  /** What settlement does: nothing (and why), or a single transfer out of escrow. */
  datatype Decision = Skip(reason: SkipReason) | Transfer(to: PubKey, lamports: nat)

  /**
   * The settlement decision for a round won by `s`. The winner and the loser
   * are the first seated players with and without `s`; the stake is the sum of
   * their bets; the transfer happens only when both exist, the winner's
   * address parses (`validKey`), the escrow balance query answers (`balance`
   * is `None` when it fails, which abandons settlement) and the escrow holds
   * the stake plus the fee.
   */
  function Decide(order: seq<ConnId>, players: map<ConnId, Player>, bets: map<ConnId, nat>,
                  s: Symbol, balance: Option<nat>, validKey: PubKey -> bool): (d: Decision)
    requires forall c :: c in order ==> c in players && c in bets
    ensures d == Skip(MissingPlayer) <==>
              (forall c :: c in order ==> players[c].symbol != s) ||
              (forall c :: c in order ==> players[c].symbol == s)
    ensures d == Skip(InvalidPubkey) ==>
              exists w :: IsFirst(order, players, s, true, w) && !validKey(players[w].pubkey)
    ensures d == Skip(BalanceUnavailable) ==>
              balance.None? &&
              (exists w, l :: IsFirst(order, players, s, true, w) && IsFirst(order, players, s, false, l)
                              && validKey(players[w].pubkey))
    ensures d == Skip(InsufficientEscrow) ==>
              balance.Some? &&
              exists w, l :: IsFirst(order, players, s, true, w) && IsFirst(order, players, s, false, l)
                             && validKey(players[w].pubkey) && balance.value < bets[w] + bets[l] + TX_FEE
    ensures d.Transfer? ==>
              exists w, l :: IsFirst(order, players, s, true, w) && IsFirst(order, players, s, false, l)
                             && players[w].symbol == s && players[l].symbol != s
                             && d.to == players[w].pubkey && validKey(d.to)
                             && d.lamports == bets[w] + bets[l]
                             && balance.Some? && balance.value >= d.lamports + TX_FEE
  {
    match (FindPlayer(order, players, s, true), FindPlayer(order, players, s, false))
    case (Some(w), Some(l)) =>
      var total := bets[w] + bets[l];
      if !validKey(players[w].pubkey) then Skip(InvalidPubkey)
      else if balance.None? then Skip(BalanceUnavailable)
      else if balance.value < total + TX_FEE then Skip(InsufficientEscrow)
      else Transfer(players[w].pubkey, total)
    case _ => Skip(MissingPlayer)
  }

  /** With two seats holding different symbols, exactly one of them matches, and `find` returns it. */
  lemma FindInPair(order: seq<ConnId>, players: map<ConnId, Player>, s: Symbol, same: bool)
    requires |order| == 2 && order[0] in players && order[1] in players
    requires players[order[0]].symbol != players[order[1]].symbol
    ensures FindPlayer(order, players, s, same) ==
              Some(if MatchesAt(order, players, s, same, 0) then order[0] else order[1])
  {
  }

  /**
   * With the two seats of a regular game (different symbols), settlement pays
   * the winner both bets exactly when the address parses, the balance query
   * answers and the escrow balance covers the stake plus the fee.
   */
  lemma TwoSeatSettlement(order: seq<ConnId>, players: map<ConnId, Player>, bets: map<ConnId, nat>,
                          s: Symbol, balance: Option<nat>, validKey: PubKey -> bool)
    requires |order| == 2 && forall c :: c in order ==> c in players && c in bets
    requires players[order[0]].symbol != players[order[1]].symbol
    ensures var w := if players[order[0]].symbol == s then order[0] else order[1];
            var l := if players[order[0]].symbol == s then order[1] else order[0];
            var total := bets[w] + bets[l];
            Decide(order, players, bets, s, balance, validKey) ==
              if !validKey(players[w].pubkey) then Skip(InvalidPubkey)
              else if balance.None? then Skip(BalanceUnavailable)
              else if balance.value < total + TX_FEE then Skip(InsufficientEscrow)
              else Transfer(players[w].pubkey, total)
  {
    assert order[0] in order && order[1] in order;
    FindInPair(order, players, s, true);
    FindInPair(order, players, s, false);
  }
}
