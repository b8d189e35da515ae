/** The bit-reversal permutation and the incremental counter that walks it (media/quality.go). */
module BitReversal {

  function Pow2(k: nat): (r: nat)
    ensures r > 0
  {
    if k == 0 then 1 else 2 * Pow2(k - 1)
  }

  ghost predicate IsPow2(n: nat) {
    exists k: nat :: Pow2(k) == n
  }

  /** The low m bits of i in reverse order. */
  function Rev(m: nat, i: nat): (r: nat)
    ensures r < Pow2(m)
  {
    if m == 0 then 0 else (if i % 2 == 1 then Pow2(m - 1) else 0) + Rev(m - 1, i / 2)
  }

  lemma Halves(b: nat)
    ensures 2 * b / 2 == b && 2 * b % 2 == 0 && (2 * b + 1) / 2 == b && (2 * b + 1) % 2 == 1
  {}

  lemma HalfOfSum(i: nat, h: nat)
    ensures (i + 2 * h) / 2 == i / 2 + h && (i + 2 * h) % 2 == i % 2
  {}

  /** Reversal seen from the other end: the top bit of i becomes the lowest bit. */
  lemma {:induction false} RevTopBit(m: nat, i: nat)
    requires m > 0 && i < Pow2(m - 1)
    ensures Rev(m, i) == 2 * Rev(m - 1, i)
    ensures Rev(m, i + Pow2(m - 1)) == 2 * Rev(m - 1, i) + 1
  {
    if m > 1 {
      RevTopBit(m - 1, i / 2);
      HalfOfSum(i, Pow2(m - 2));
    }
  }

  /** Reversal is its own inverse, hence a bijection on [0, 2^m). */
  lemma {:induction false} RevInvolution(m: nat, i: nat)
    requires i < Pow2(m)
    ensures Rev(m, Rev(m, i)) == i
  {
    if m > 0 {
      RevInvolution(m - 1, i / 2);
      RevTopBit(m, Rev(m - 1, i / 2));
    }
  }

  lemma {:induction false} RevZero(m: nat)
    ensures Rev(m, 0) == 0
  {
    if m > 0 {
      RevZero(m - 1);
    }
  }

  /** For a power of two, j & bit != 0 on non-negative j. */
  predicate BitSet(j: nat, bit: nat)
    requires bit > 0
  {
    j / bit % 2 == 1
  }

  /** For a power of two, j ^ bit on non-negative j. */
  function Flip(j: nat, bit: nat): nat
    requires bit > 0
  {
    if BitSet(j, bit) then j - bit else j + bit
  }

  lemma TopBit(h: nat, r: nat)
    requires r < h
    ensures !BitSet(r, h) && BitSet(h + r, h)
  {
    assert r / h == 0;
    assert (h + r) / h == 1;
  }

  /** The carry step of the reversed counter: the loop strips set bits from the top until it meets a clear one. */
  lemma ReverseCarry(q: nat, i: nat)
    requires q > 0 && i < Pow2(q)
    ensures BitSet(Rev(q, i), Pow2(q - 1)) <==> i % 2 == 1
    ensures i % 2 == 1 ==> Rev(q, i) - Pow2(q - 1) == Rev(q - 1, i / 2) && Rev(q, i + 1) == Rev(q - 1, i / 2 + 1)
    ensures i % 2 == 0 ==> Rev(q, i) + Pow2(q - 1) == Rev(q, i + 1)
  {
    TopBit(Pow2(q - 1), Rev(q - 1, i / 2));
    assert (i + 1) / 2 == if i % 2 == 1 then i / 2 + 1 else i / 2;
  }

  /**
   * One round of the counter: j goes from the reversal of i - 1 to the reversal of i.
   * The source keeps `bit` and `j` in local variables of the caller's loop.
   */
  method NextReversed(n: nat, ghost m: nat, ghost i: nat, j0: nat) returns (j: nat)
    requires n == Pow2(m) && 0 < i < n
    requires j0 == Rev(m, i - 1)
    ensures j == Rev(m, i)
  {
    j := j0;
    var bit := n / 2;
    ghost var q, c := m, i - 1;
    while BitSet(j, bit)
      invariant 0 < q <= m && bit == Pow2(q - 1)
      invariant 0 <= c && c + 1 < Pow2(q) && j == Rev(q, c) && Rev(q, c + 1) == Rev(m, i)
      decreases q
    {
      ReverseCarry(q, c);
      j := Flip(j, bit);
      bit := bit / 2;
      q, c := q - 1, c / 2;
    }
    ReverseCarry(q, c);
    j := Flip(j, bit);
  }

  /** The sequence with every element moved to its bit-reversed position. */
  function Reversed<T>(m: nat, s: seq<T>): (r: seq<T>)
    requires |s| == Pow2(m)
    ensures |r| == |s|
  {
    seq(|s|, i requires 0 <= i < |s| => s[Rev(m, i)])
  }

  /** Every element is moved exactly once and none is lost: moving them again restores the input. */
  lemma ReversedTwice<T>(m: nat, s: seq<T>)
    requires |s| == Pow2(m)
    ensures Reversed(m, Reversed(m, s)) == s
  {
    forall i | 0 <= i < |s|
      ensures Reversed(m, Reversed(m, s))[i] == s[i]
    {
      RevInvolution(m, i);
    }
  }

  /** The swaps of the source, each pair once when its smaller index comes up, apply exactly the permutation. */
  method ReverseInPlace<T>(x: array<T>, ghost m: nat)
    requires x.Length == Pow2(m)
    modifies x
    ensures x[..] == Reversed(m, old(x[..]))
  {
    hide Rev, Pow2;
    var n := x.Length;
    var j := 0;
    RevZero(m);
    forall p | 0 <= p < n && Rev(m, p) < 1
      ensures p == 0
    {
      RevInvolution(m, p);
    }
    for i := 1 to n
      invariant j == Rev(m, i - 1)
      invariant forall p :: 0 <= p < n ==>
        x[p] == if p < i || Rev(m, p) < i then old(x[..])[Rev(m, p)] else old(x[..])[p]
    {
      j := NextReversed(n, m, i, j);
      RevInvolution(m, i);
      if i < j {
        x[i], x[j] := x[j], x[i];
      }
      forall p | 0 <= p < n
        ensures x[p] == if p < i + 1 || Rev(m, p) < i + 1 then old(x[..])[Rev(m, p)] else old(x[..])[p]
      {
        RevInvolution(m, p);
      }
    }
  }
}
