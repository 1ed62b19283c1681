/**
 * Win detection (game.py:181-197, `Game.winner`) on the vector of row
 * weights.  The scan keeps the first row whose weight beats every earlier
 * row, starting from weight -1; that row wins once its weight reaches the win
 * amount or either deck has run out.
 */
module Scoring {
  import opened Optional

  /** `winamount = c + c // 2 + 1` (game.py:40). */
  function WinAmount(c: nat): (amount: nat)
  {
    c + c / 2 + 1
  }

  /** Row `i` has the greatest weight and no earlier row has it: ties go to the lowest row. */
  predicate IsFirstMax(ws: seq<int>, i: nat)
  {
    i < |ws|
    && (forall k :: 0 <= k < |ws| ==> ws[k] <= ws[i])
    && (forall k :: 0 <= k < i ==> ws[k] < ws[i])
  }

  /** `(max_player, max_weight)` after the scan of game.py:185-191 has visited all of `ws`. */
  function Scan(ws: seq<int>): (best: (Option<nat>, int))
  {
    if |ws| == 0 then (None, -1)
    else
      var prev := Scan(ws[..|ws| - 1]);
      if ws[|ws| - 1] > prev.1 then (Some(|ws| - 1), ws[|ws| - 1]) else prev
  }

  /** What the scan finds: nothing when every weight is at most -1, else the first row of greatest weight. */
  lemma {:induction false} ScanFindsFirstMax(ws: seq<int>)
    ensures Scan(ws).0.None? <==> forall k :: 0 <= k < |ws| ==> ws[k] <= -1
    ensures Scan(ws).0.None? ==> Scan(ws).1 == -1
    ensures Scan(ws).0.Some? ==> IsFirstMax(ws, Scan(ws).0.value) && Scan(ws).1 == ws[Scan(ws).0.value] > -1
  {
    if |ws| > 0 {
      var n := |ws|;
      var pre := ws[..n - 1];
      ScanFindsFirstMax(pre);
      assert forall k :: 0 <= k < n - 1 ==> pre[k] == ws[k];
    }
  }

  /** `winner()` as a value: the scanned row if it reached `winamount` or a deck is empty, else `None`. */
  function WinnerOf(ws: seq<int>, winamount: int, outOfCards: bool): (winner: Option<nat>)
  {
    var (maxPlayer, maxWeight) := Scan(ws);
    if maxWeight >= winamount then maxPlayer
    else if outOfCards then maxPlayer
    else None
  }

  /**
   * The winner is exactly the first row of greatest weight (a weight above
   * -1), provided that weight reaches the win amount or the cards have run out.
   */
  lemma WinnerIsFirstMax(ws: seq<int>, winamount: int, outOfCards: bool)
    ensures WinnerOf(ws, winamount, outOfCards).Some? ==>
              var i := WinnerOf(ws, winamount, outOfCards).value;
              IsFirstMax(ws, i) && ws[i] > -1 && (ws[i] >= winamount || outOfCards)
    ensures forall i: nat :: IsFirstMax(ws, i) && ws[i] > -1 && (ws[i] >= winamount || outOfCards) ==>
              WinnerOf(ws, winamount, outOfCards) == Some(i)
  {
    ScanFindsFirstMax(ws);
    forall i: nat | IsFirstMax(ws, i) && ws[i] > -1 && (ws[i] >= winamount || outOfCards)
      ensures WinnerOf(ws, winamount, outOfCards) == Some(i)
    {
      var j := Scan(ws).0.value;
      assert !(j < i) && !(i < j);
    }
  }

  /** With non-negative weights some row is always scanned, so "no winner" means both decks still hold cards. */
  lemma NoWinnerMeansCardsLeft(ws: seq<int>, winamount: int, outOfCards: bool)
    requires |ws| > 0
    requires forall k :: 0 <= k < |ws| ==> ws[k] >= 0
    requires WinnerOf(ws, winamount, outOfCards).None?
    ensures !outOfCards
  {
    ScanFindsFirstMax(ws);
    assert ws[0] > -1;
  }
}
