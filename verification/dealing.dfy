/**
 * Shuffling and dealing the deck (class `Baralho`): `embaralhar` shuffles
 * the deck in place, and `distribuir(n)` deals the shuffled deck out
 * round-robin, card `i` to hand `i % n`.
 */
module Dealing {
  import opened Cards

  /**
   * Hand `k` of a round-robin deal of `s` among `n` hands: the elements of
   * `s` at the positions `i` with `i % n == k`, in their order in `s`.
   */
  function HandOf<T>(s: seq<T>, n: nat, k: nat): seq<T>
    requires n > 0
    decreases |s|
  {
    if s == [] then []
    else HandOf(s[..|s| - 1], n, k) + (if (|s| - 1) % n == k then [s[|s| - 1]] else [])
  }

  /** All `n` hands of the deal. */
  function Hands<T>(s: seq<T>, n: nat): (hs: seq<seq<T>>)
    requires n > 0
    ensures |hs| == n
  {
    seq(n, k requires 0 <= k < n => HandOf(s, n, k))
  }

  /** The hands laid end to end. */
  function Flatten<T>(hs: seq<seq<T>>): seq<T>
  {
    if hs == [] then [] else hs[0] + Flatten(hs[1..])
  }

  /** Euclidean division by a positive divisor has a unique quotient and remainder. */
  lemma DivModUnique(m: int, n: int, q: int, k: int)
    requires n > 0 && 0 <= k < n
    requires m == q * n + k
    ensures m / n == q && m % n == k
  {
    var q', k' := m / n, m % n;
    assert m == q' * n + k';
    if q' > q {
      assert q' * n >= (q + 1) * n by { MulMonotone(q + 1, q', n); }
      assert false;
    } else if q' < q {
      assert q * n >= (q' + 1) * n by { MulMonotone(q' + 1, q, n); }
      assert false;
    }
  }

  /** Multiplying by a non-negative factor keeps the order. */
  lemma MulMonotone(a: int, b: int, n: int)
    requires a <= b && n >= 0
    ensures a * n <= b * n
  {
    assert b * n - a * n == (b - a) * n;
  }

  /**
   * One step of the deal in arithmetic: when hand `k` holds `c` cards after
   * `m` cards were dealt, card `m` goes to hand `k` exactly when it is the
   * next position `c * n + k` of that hand.
   */
  lemma DealStep(m: int, n: int, k: int, c: int)
    requires n > 0 && 0 <= k < n
    requires (c - 1) * n + k < m <= c * n + k
    ensures m % n == k <==> m == c * n + k
  {
    if m == c * n + k {
      DivModUnique(m, n, c, k);
    } else if m % n == k {
      var q := m / n;
      DivModUnique(m, n, q, k);
      if q >= c { MulMonotone(c, q, n); }
      else { MulMonotone(q, c - 1, n); }
      assert false;
    }
  }

  /** Hand `k` has as many cards as there are positions `j * n + k` inside `s`. */
  lemma {:induction false} HandOfLength<T>(s: seq<T>, n: nat, k: nat)
    requires 0 <= k < n
    ensures (|HandOf(s, n, k)| - 1) * n + k < |s| <= |HandOf(s, n, k)| * n + k
    decreases |s|
  {
    if s != [] {
      var p := s[..|s| - 1];
      var m := |p|;
      HandOfLength(p, n, k);
      var c := |HandOf(p, n, k)|;
      DealStep(m, n, k, c);
      NextBounds(m, n, k, c);
    }
  }

  /** The bounds of `HandOfLength` carried from `m` dealt cards to `m + 1`. */
  lemma NextBounds(m: int, n: int, k: int, c: int)
    requires n > 0 && 0 <= k < n
    requires (c - 1) * n + k < m <= c * n + k
    ensures m == c * n + k ==> c * n + k < m + 1 <= (c + 1) * n + k
    ensures m != c * n + k ==> (c - 1) * n + k < m + 1 <= c * n + k
  {
    assert (c + 1) * n == c * n + n;
  }

  /** The `j`-th card of hand `k` is the card at position `j * n + k` of `s`. */
  lemma {:induction false} HandOfAt<T>(s: seq<T>, n: nat, k: nat, j: nat)
    requires 0 <= k < n
    requires j < |HandOf(s, n, k)|
    ensures j * n + k < |s| && HandOf(s, n, k)[j] == s[j * n + k]
    decreases |s|
  {
    var p := s[..|s| - 1];
    var m := |p|;
    var h := HandOf(p, n, k);
    HandOfLength(p, n, k);
    DealStep(m, n, k, |h|);
    if j < |h| {
      HandOfAt(p, n, k, j);
    } else {
      assert m % n == k && j == |h|;
    }
  }

  /** The arithmetic of `HandSizes`: two hands bounded as `HandOfLength` says differ by at most one card. */
  lemma SizeArith(m: int, n: int, k1: int, k2: int, a: int, b: int)
    requires 0 <= k1 < k2 < n
    requires (a - 1) * n + k1 < m <= a * n + k1
    requires (b - 1) * n + k2 < m <= b * n + k2
    ensures b <= a <= b + 1
  {
    assert (a - 1) * n == a * n - n && (b - 1) * n == b * n - n;
    if a > b + 1 { MulMonotone(b + 1, a - 1, n); }
    if b > a { MulMonotone(a, b - 1, n); }
  }

  /** Round-robin hands differ in size by at most one card, and an earlier hand is never the smaller. */
  lemma HandSizes<T>(s: seq<T>, n: nat, k1: nat, k2: nat)
    requires k1 < k2 < n
    ensures |HandOf(s, n, k2)| <= |HandOf(s, n, k1)| <= |HandOf(s, n, k2)| + 1
  {
    HandOfLength(s, n, k1);
    HandOfLength(s, n, k2);
    SizeArith(|s|, n, k1, k2, |HandOf(s, n, k1)|, |HandOf(s, n, k2)|);
  }

  /** Between two players the first hand gets the extra card of an odd deck. */
  lemma TwoHandSizes<T>(s: seq<T>)
    ensures |HandOf(s, 2, 0)| == (|s| + 1) / 2
    ensures |HandOf(s, 2, 1)| == |s| / 2
  {
    HandOfLength(s, 2, 0);
    HandOfLength(s, 2, 1);
  }

  /** Appending `x` to one hand adds exactly `x` to the cards of all hands. */
  lemma {:induction false} FlattenAppend<T>(hs: seq<seq<T>>, i: nat, x: T)
    requires i < |hs|
    ensures multiset(Flatten(hs[i := hs[i] + [x]])) == multiset(Flatten(hs)) + multiset{x}
  {
    var hs' := hs[i := hs[i] + [x]];
    if i > 0 {
      assert hs'[1..] == hs[1..][i - 1 := hs[1..][i - 1] + [x]];
      FlattenAppend(hs[1..], i - 1, x);
    } else {
      assert hs'[1..] == hs[1..];
    }
  }

  /** Dealing one more card `x` appends it to hand `|p| % n` and leaves the other hands alone. */
  lemma HandsSnoc<T>(p: seq<T>, x: T, n: nat)
    requires n > 0
    ensures Hands(p + [x], n) == Hands(p, n)[|p| % n := Hands(p, n)[|p| % n] + [x]]
  {
    var s, hs := p + [x], Hands(p, n);
    assert s[..|s| - 1] == p;
    forall k | 0 <= k < n
      ensures Hands(s, n)[k] == hs[|p| % n := hs[|p| % n] + [x]][k]
    {
      assert HandOf(s, n, k) == HandOf(p, n, k) + (if |p| % n == k then [x] else []);
    }
  }

  /** A deal is a partition: the hands together hold exactly the cards of the deck. */
  lemma {:induction false} DealPartition<T>(s: seq<T>, n: nat)
    requires n > 0
    ensures multiset(Flatten(Hands(s, n))) == multiset(s)
    decreases |s|
  {
    if s == [] {
      EmptyHands(Hands(s, n));
    } else {
      var p, x := s[..|s| - 1], s[|s| - 1];
      assert s == p + [x];
      DealPartition(p, n);
      HandsSnoc(p, x, n);
      FlattenAppend(Hands(p, n), |p| % n, x);
    }
  }

  /** Empty hands laid end to end hold nothing. */
  lemma {:induction false} EmptyHands<T>(hs: seq<seq<T>>)
    requires forall k :: 0 <= k < |hs| ==> hs[k] == []
    ensures Flatten(hs) == []
  {
    if hs != [] { EmptyHands(hs[1..]); }
  }

  /** A deal to two hands splits the deck between them: every card goes to exactly one hand. */
  lemma TwoHandsPartition<T>(s: seq<T>)
    ensures multiset(HandOf(s, 2, 0)) + multiset(HandOf(s, 2, 1)) == multiset(s)
  {
    var hs := Hands(s, 2);
    DealPartition(s, 2);
    assert hs[1..][1..] == [];
    assert Flatten(hs[1..]) == hs[1] + Flatten(hs[1..][1..]);
    assert Flatten(hs) == hs[0] + hs[1];
  }

  /** The loop of `distribuir`: deal `s` out to `n` hands, card `i` to hand `i % n`. */
  method DealRoundRobin<T>(s: seq<T>, n: nat) returns (hands: seq<seq<T>>)
    requires n > 0
    ensures |hands| == n
    ensures forall k :: 0 <= k < n ==> hands[k] == HandOf(s, n, k)
  {
    hands := seq(n, _ => []);
    var i := 0;
    while i < |s|
      invariant 0 <= i <= |s|
      invariant |hands| == n
      invariant forall k :: 0 <= k < n ==> hands[k] == HandOf(s[..i], n, k)
    {
      assert s[..i + 1][..i] == s[..i];
      hands := hands[i % n := hands[i % n] + [s[i]]];
      i := i + 1;
    }
    assert s[..|s|] == s;
  }

  /** The deck object (`Baralho`): its cards, in their current order. */
  class Deck {
    var cards: seq<Card>

    constructor (cards: seq<Card>)
      ensures this.cards == cards
    {
      this.cards := cards;
    }

    /**
     * `embaralhar`: reorder the deck in place. The random order of
     * `random.shuffle` is the caller's `shuffled`, any permutation of the deck.
     */
    method Shuffle(shuffled: seq<Card>)
      requires multiset(shuffled) == multiset(cards)
      modifies this
      ensures cards == shuffled
      ensures multiset(cards) == old(multiset(cards))
    {
      cards := shuffled;
    }

    /**
     * `distribuir(n)`: shuffle, then deal round-robin. The deck keeps its
     * new order, and the hands partition it.
     */
    method Deal(players: nat, shuffled: seq<Card>) returns (hands: seq<seq<Card>>)
      requires players > 0
      requires multiset(shuffled) == multiset(cards)
      modifies this
      ensures cards == shuffled
      ensures |hands| == players
      ensures forall k :: 0 <= k < players ==> hands[k] == HandOf(cards, players, k)
      ensures multiset(Flatten(hands)) == old(multiset(cards))
    {
      Shuffle(shuffled);
      hands := DealRoundRobin(cards, players);
      assert hands == Hands(cards, players);
      DealPartition(cards, players);
    }
  }
}
