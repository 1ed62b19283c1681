/**
 * The two decks dealt at game start (game.py:82-86, `Game.initdecks`):
 * `list(range(areas + 1)) * c` area cards and `list(range(c)) * (areas + 1)`
 * ability cards, each then shuffled.
 */
module Decks {
  import Rows

  /** `list(range(n))`. */
  function Range(n: nat): (s: seq<nat>)
    ensures |s| == n
    ensures forall i :: 0 <= i < n ==> s[i] == i
  {
    seq(n, i => i)
  }

  /** `s * k`: `k` copies of `s`, one after another. */
  function Repeat(s: seq<nat>, k: nat): (repeated: seq<nat>)
  {
    if k == 0 then [] else Repeat(s, k - 1) + s
  }

  /** The unshuffled area deck: `c` copies of every area code `0..areas`. */
  function FullAreaDeck(areas: nat, c: nat): (deck: seq<nat>)
  {
    Repeat(Range(areas + 1), c)
  }

  /** The unshuffled ability deck: `areas + 1` copies of every ability code `0..c-1`. */
  function FullAbilityDeck(areas: nat, c: nat): (deck: seq<nat>)
  {
    Repeat(Range(c), areas + 1)
  }

  lemma {:induction false} RepeatLength(s: seq<nat>, k: nat)
    ensures |Repeat(s, k)| == |s| * k
  {
    if k > 0 {
      RepeatLength(s, k - 1);
      assert |s| * k == |s| * (k - 1) + |s|;
    }
  }

  lemma {:induction false} RangeCount(n: nat, v: int)
    ensures multiset(Range(n))[v] == if 0 <= v < n then 1 else 0
  {
    if n > 0 {
      assert Range(n) == Range(n - 1) + [n - 1];
      RangeCount(n - 1, v);
    }
  }

  /** Each code of `range(n) * k` appears exactly `k` times, and nothing else appears. */
  lemma {:induction false} RepeatRangeCount(n: nat, k: nat, v: int)
    ensures multiset(Repeat(Range(n), k))[v] == if 0 <= v < n then k else 0
  {
    if k > 0 {
      RepeatRangeCount(n, k - 1, v);
      RangeCount(n, v);
      assert multiset(Repeat(Range(n), k)) == multiset(Repeat(Range(n), k - 1)) + multiset(Range(n));
    }
  }

  /**
   * The fresh decks (game.py:82-84): both hold `c * (areas + 1)` cards; the
   * area deck holds every area `0..areas` exactly `c` times and the ability
   * deck every ability `0..c-1` exactly `areas + 1` times.
   */
  lemma FullDecks(areas: nat, c: nat)
    ensures |FullAreaDeck(areas, c)| == c * (areas + 1)
    ensures |FullAbilityDeck(areas, c)| == c * (areas + 1)
    ensures forall v :: multiset(FullAreaDeck(areas, c))[v] == if 0 <= v <= areas then c else 0
    ensures forall v :: multiset(FullAbilityDeck(areas, c))[v] == if 0 <= v < c then areas + 1 else 0
  {
    RepeatLength(Range(areas + 1), c);
    RepeatLength(Range(c), areas + 1);
    forall v ensures multiset(FullAreaDeck(areas, c))[v] == if 0 <= v <= areas then c else 0 {
      RepeatRangeCount(areas + 1, c, v);
    }
    forall v ensures multiset(FullAbilityDeck(areas, c))[v] == if 0 <= v < c then areas + 1 else 0 {
      RepeatRangeCount(c, areas + 1, v);
    }
  }

  /** A shuffle of `range(n) * k` holds `n * k` cards. */
  lemma ShuffleLength(deck: seq<nat>, n: nat, k: nat)
    requires multiset(deck) == multiset(Repeat(Range(n), k))
    ensures |deck| == n * k
  {
    assert |multiset(deck)| == |deck|;
    RepeatLength(Range(n), k);
  }

  /** A shuffle of `range(n) * k` with `n, k >= 1` has a card on top. */
  lemma ShuffleNonEmpty(deck: seq<nat>, n: nat, k: nat)
    requires n >= 1 && k >= 1
    requires multiset(deck) == multiset(Repeat(Range(n), k))
    ensures |deck| > 0
  {
    ShuffleLength(deck, n, k);
    Rows.MultipleAtLeast(k, n);
  }

  /** A shuffle of `range(n) * k` only holds codes below `n`. */
  lemma ShuffleCodesInRange(deck: seq<nat>, n: nat, k: nat)
    requires multiset(deck) == multiset(Repeat(Range(n), k))
    ensures forall i :: 0 <= i < |deck| ==> deck[i] < n
  {
    forall i | 0 <= i < |deck| ensures deck[i] < n {
      assert deck[i] in multiset(deck);
      RepeatRangeCount(n, k, deck[i]);
    }
  }

  /**
   * `deck` is what is left of the shuffled deck `dealt` after cards have
   * been popped from the front, `dealt` is a rearrangement of `full`, and
   * every card is below `bound`.
   */
  predicate IsRemainder(deck: seq<nat>, dealt: seq<nat>, full: seq<nat>, bound: nat)
  {
    && multiset(dealt) == multiset(full)
    && |deck| <= |dealt| && deck == dealt[|dealt| - |deck|..]
    && forall i :: 0 <= i < |deck| ==> deck[i] < bound
  }

  /** A fresh shuffle is all remainder. */
  lemma ShuffleIsRemainder(deck: seq<nat>, n: nat, k: nat)
    requires multiset(deck) == multiset(Repeat(Range(n), k))
    ensures IsRemainder(deck, deck, Repeat(Range(n), k), n)
  {
    ShuffleCodesInRange(deck, n, k);
    assert deck == deck[|deck| - |deck|..];
  }

  /** Popping the front card leaves a remainder of the same shuffle. */
  lemma PopIsRemainder(deck: seq<nat>, dealt: seq<nat>, full: seq<nat>, bound: nat)
    requires IsRemainder(deck, dealt, full, bound)
    requires |deck| > 0
    ensures deck[0] < bound
    ensures IsRemainder(deck[1..], dealt, full, bound)
  {
    assert deck[1..] == dealt[|dealt| - |deck[1..]|..];
  }
}
