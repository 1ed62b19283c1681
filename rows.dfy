/**
 * The layout of the board rows (game.py, `Game.find_row` and `Game.rowinfo`)
 * and the round-robin arithmetic of the auction turn order.
 *
 * A board has `players * areas + 1` rows.  Row 0 belongs to the King; the
 * band of `player` in area `a >= 1` lives in row `player + (a - 1) * players + 1`.
 */
module Rows {
  import opened Optional

  /** Number of board rows for a game (game.py:33). */
  function RowCount(players: nat, areas: nat): (rows: nat)
    ensures rows >= 1
  {
    players * areas + 1
  }

  /** `find_row(player, area)`: area 0 is the King's row whatever the player. */
  function FindRow(players: nat, player: nat, area: nat): (row: nat)
    ensures area == 0 ==> row == 0
    ensures area > 0 ==> row > 0
  {
    if area == 0 then 0 else player + (area - 1) * players + 1
  }

  /**
   * `rowinfo(row)`: the (player, area) pair owning a row, `(None, 0)` for the
   * King.  Python's `%` and `//` agree with Dafny's for a positive divisor and
   * a non-negative dividend, which is the only case reached here.
   */
  function RowInfo(players: nat, row: nat): (info: (Option<nat>, nat))
    requires players > 0
    ensures row == 0 <==> info.0 == None
    ensures row == 0 <==> info.1 == 0
  {
    if row == 0 then (None, 0) else (Some((row - 1) % players), 1 + (row - 1) / players)
  }

  /** Euclidean division is unique: the quotient and remainder of `q * n + p`. */
  lemma DivModOf(q: nat, p: nat, n: nat)
    requires p < n
    ensures (q * n + p) / n == q
    ensures (q * n + p) % n == p
  {
    var x := q * n + p;
    var q', p' := x / n, x % n;
    assert x == q' * n + p';
    if q' < q {
      var d := q - q';
      assert q * n == q' * n + d * n;
      MultipleAtLeast(d, n);
    } else if q' > q {
      var d := q' - q;
      assert q' * n == q * n + d * n;
      MultipleAtLeast(d, n);
    }
  }

  lemma MultipleAtLeast(d: nat, n: nat)
    requires d >= 1
    ensures d * n >= n
  {
    assert d * n == (d - 1) * n + n;
  }

  /** Multiplying by `n` keeps the order of the factors. */
  lemma MultipleMonotone(a: nat, b: nat, n: nat)
    ensures a <= b ==> a * n <= b * n
  {
    if a <= b {
      assert b * n == a * n + (b - a) * n;
    }
  }

  /** Every player band row lies strictly between the King's row and `RowCount`, and `rowinfo` inverts `find_row`. */
  lemma RowInfoOfFindRow(players: nat, areas: nat, player: nat, area: nat)
    requires player < players
    requires 1 <= area <= areas
    ensures 1 <= FindRow(players, player, area) < RowCount(players, areas)
    ensures RowInfo(players, FindRow(players, player, area)) == (Some(player), area)
  {
    var row := FindRow(players, player, area);
    DivModOf(area - 1, player, players);
    assert row - 1 == (area - 1) * players + player;
    assert (area - 1) * players <= (areas - 1) * players;
  }

  /** Every row other than the King's belongs to exactly one (player, area) band: `find_row` inverts `rowinfo`. */
  lemma FindRowOfRowInfo(players: nat, areas: nat, row: nat)
    requires players > 0
    requires 1 <= row < RowCount(players, areas)
    ensures RowInfo(players, row).0.Some?
    ensures RowInfo(players, row).0.value < players
    ensures 1 <= RowInfo(players, row).1 <= areas
    ensures FindRow(players, RowInfo(players, row).0.value, RowInfo(players, row).1) == row
  {
    var q, p := (row - 1) / players, (row - 1) % players;
    assert row - 1 == q * players + p;
    MultipleMonotone(areas, q, players);
  }

  /** The King's row: `find_row(_, 0) == 0` and `rowinfo(0) == (None, 0)`. */
  lemma KingRow(players: nat, player: nat)
    requires players > 0
    ensures FindRow(players, player, 0) == 0
    ensures RowInfo(players, 0) == (None, 0)
  {
  }

  /** One step of the round-robin: moving on from `(s + t) % n` gives `(s + t + 1) % n`. */
  lemma NextSeat(s: nat, t: nat, n: nat)
    requires n > 0
    ensures ((s + t) % n + 1) % n == (s + t + 1) % n
  {
    var x := s + t;
    var q, m := x / n, x % n;
    assert x + 1 == q * n + (m + 1);
    if m + 1 < n {
      DivModOf(0, m + 1, n);
      DivModOf(q, m + 1, n);
    } else {
      DivModOf(1, 0, n);
      assert q * n + n == (q + 1) * n;
      DivModOf(q + 1, 0, n);
    }
  }

  /**
   * The auction returns to its starting player for the first time after
   * exactly one full round: for `1 <= k <= n`, seat `(s + k) % n` is `s`
   * only when `k == n`.
   */
  lemma FirstReturnAfterFullRound(s: nat, k: nat, n: nat)
    requires s < n
    requires 1 <= k <= n
    ensures ((s + k) % n == s) <==> k == n
  {
    if k == n {
      assert s + k == 1 * n + s;
      DivModOf(1, s, n);
    } else if s + k < n {
      DivModOf(0, s + k, n);
    } else {
      assert s + k == 1 * n + (s + k - n);
      DivModOf(1, s + k - n, n);
    }
  }
}
