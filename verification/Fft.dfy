/** The in-place radix-2 transform of media/quality.go against the discrete Fourier transform. */
module Fft {
  import opened ComplexNumbers
  import opened BitReversal

  /** The twiddle w(size) of each stage: w(2) is -1 and each one is a square root of the one before. */
  ghost predicate Twiddles(w: nat -> Complex, n: nat) {
    && w(2) == MINUS_ONE
    && forall k: nat :: 2 * Pow2(k) <= n ==> Mul(w(2 * Pow2(k)), w(2 * Pow2(k))) == w(Pow2(k))
  }

  function At(x: seq<Complex>, i: int): Complex {
    if 0 <= i < |x| then x[i] else ZERO
  }

  /** Sum over j < n of x[o + s*j] * w^(j*k): the transform of n samples of x taken s apart from o. */
  function Sum(x: seq<Complex>, o: nat, s: nat, w: Complex, k: nat, n: nat): Complex {
    if n == 0 then ZERO
    else Add(Sum(x, o, s, w, k, n - 1), Mul(At(x, o + s * (n - 1)), Pow(w, (n - 1) * k)))
  }

  /** The discrete Fourier transform of x with the root of unity w. */
  function Dft(x: seq<Complex>, w: Complex): (y: seq<Complex>)
    ensures |y| == |x|
  {
    seq(|x|, k requires 0 <= k < |x| => Sum(x, 0, 1, w, k, |x|))
  }

  lemma {:induction false} SumEmpty(k: Complex)
    ensures Add(ZERO, Mul(k, ZERO)) == ZERO
  {}

  /** The two samples that one more pair adds to the sum. */
  lemma PairTerms(w: Complex, k: nat, j: nat, b: Complex)
    ensures Pow(w, 2 * j * k) == Pow(Mul(w, w), j * k)
    ensures Mul(b, Pow(w, (2 * j + 1) * k)) == Mul(Pow(w, k), Mul(b, Pow(Mul(w, w), j * k)))
  {
    hide Mul, Pow;
    var p := Pow(Mul(w, w), j * k);
    PowTwo(w);
    PowMul(w, 2, j * k);
    assert 2 * (j * k) == 2 * j * k;
    assert (2 * j + 1) * k == k + 2 * j * k;
    PowAdd(w, k, 2 * j * k);
    MulAssoc(b, Pow(w, k), p);
    MulComm(b, Pow(w, k));
    MulAssoc(Pow(w, k), b, p);
  }

  /** The even and the odd samples are transformed separately (the Danielson-Lanczos split). */
  lemma {:induction false} SumSplit(x: seq<Complex>, o: nat, s: nat, w: Complex, k: nat, h: nat)
    ensures Sum(x, o, s, w, k, 2 * h) ==
            Add(Sum(x, o, 2 * s, Mul(w, w), k, h), Mul(Pow(w, k), Sum(x, o + s, 2 * s, Mul(w, w), k, h)))
  {
    hide Mul, Add, Pow, At;
    if h == 0 {
      SumEmpty(Pow(w, k));
    } else {
      var v, j := Mul(w, w), h - 1;
      SumSplit(x, o, s, w, k, j);
      var even, odd := Sum(x, o, 2 * s, v, k, j), Sum(x, o + s, 2 * s, v, k, j);
      var a, b := At(x, o + 2 * s * j), At(x, o + s + 2 * s * j);
      assert s * (2 * j) == 2 * s * j && s * (2 * j + 1) == s + 2 * s * j;
      PairTerms(w, k, j, b);
      var p := Pow(v, j * k);
      AddInterchange(even, Mul(Pow(w, k), odd), Mul(a, p), Mul(Pow(w, k), Mul(b, p)));
      MulAdd(Pow(w, k), odd, Mul(b, p));
      assert Sum(x, o, s, w, k, 2 * h) == Add(Sum(x, o, s, w, k, 2 * j + 1), Mul(b, Pow(w, (2 * j + 1) * k)));
      assert Sum(x, o, s, w, k, 2 * j + 1) == Add(Sum(x, o, s, w, k, 2 * j), Mul(a, Pow(w, (2 * j) * k)));
    }
  }

  /** A root of unity of order h makes the sum periodic in k. */
  lemma {:induction false} SumPeriodic(x: seq<Complex>, o: nat, s: nat, w: Complex, k: nat, h: nat, n: nat)
    requires Pow(w, h) == ONE
    ensures Sum(x, o, s, w, k + h, n) == Sum(x, o, s, w, k, n)
  {
    hide Mul, Add, Pow, At;
    if n > 0 {
      var j := n - 1;
      SumPeriodic(x, o, s, w, k, h, j);
      assert j * (k + h) == j * k + h * j;
      PowAdd(w, j * k, h * j);
      PowMul(w, h, j);
      PowOne(j);
      MulOne(Pow(w, j * k));
    }
  }

  /** Half way round, the twiddle of a stage is -1; all the way round it is 1. */
  lemma {:induction false} HalfTurn(w: nat -> Complex, n: nat, l: nat)
    requires Twiddles(w, n) && 2 * Pow2(l) <= n
    ensures Pow(w(2 * Pow2(l)), Pow2(l)) == MINUS_ONE
    ensures Pow(w(Pow2(l)), Pow2(l)) == ONE
  {
    hide Mul, Pow;
    var h := Pow2(l);
    PowTwo(w(2 * h));
    PowTwo(w(h));
    if l == 0 {
      assert Mul(w(2 * h), w(2 * h)) == w(h);
      MulOne(MINUS_ONE);
      assert Sub(ZERO, MINUS_ONE) == ONE;
    } else {
      var q := Pow2(l - 1);
      HalfTurn(w, n, l - 1);
      assert Mul(w(2 * h), w(2 * h)) == w(h);
      PowMul(w(2 * h), 2, q);
      assert Pow(w(2 * h), h) == Pow(w(h), q) == MINUS_ONE;
      PowAdd(w(h), q, q);
      MulOne(MINUS_ONE);
      assert Sub(ZERO, MINUS_ONE) == ONE;
    }
  }

  /** What position r of block b holds once every block of 2^l samples is transformed. */
  ghost function Block(x: seq<Complex>, w: nat -> Complex, m: nat, l: nat, b: nat, r: nat): Complex
    requires l <= m
  {
    Sum(x, Rev(m - l, b), Pow2(m - l), w(Pow2(l)), r, Pow2(l))
  }

  function BlockOf(p: nat, size: nat): nat
    requires size > 0
  {
    p / size
  }

  function OffsetOf(p: nat, size: nat): nat
    requires size > 0
  {
    p % size
  }

  /** What x[p] holds at that moment. */
  ghost function Stage(x: seq<Complex>, w: nat -> Complex, m: nat, l: nat, p: nat): Complex
    requires l <= m
  {
    Block(x, w, m, l, BlockOf(p, Pow2(l)), OffsetOf(p, Pow2(l)))
  }

  lemma BlockIndex(b: nat, size: nat, r: nat)
    requires r < size
    ensures BlockOf(b * size + r, size) == b && OffsetOf(b * size + r, size) == r
  {
    var p := b * size + r;
    assert p == p / size * size + p % size;
    var d: int := p / size - b;
    assert d * size == r - p % size;
    assert d == 0;
  }

  lemma RevHalves(q: nat, b: nat)
    requires q > 0
    ensures Rev(q, 2 * b) == Rev(q - 1, b) && Rev(q, 2 * b + 1) == Rev(q - 1, b) + Pow2(q - 1)
  {
    hide Pow2;
    Halves(b);
  }

  /** The two halves of a sum of 2h terms, when w^h is -1. */
  lemma HalfSums(x: seq<Complex>, o: nat, s: nat, w: Complex, k: nat, h: nat)
    requires Pow(w, h) == MINUS_ONE && Pow(Mul(w, w), h) == ONE
    ensures var even, odd := Sum(x, o, 2 * s, Mul(w, w), k, h), Sum(x, o + s, 2 * s, Mul(w, w), k, h);
            var t := Mul(odd, Pow(w, k));
            Sum(x, o, s, w, k, 2 * h) == Add(even, t) && Sum(x, o, s, w, k + h, 2 * h) == Sub(even, t)
  {
    hide Mul, Add, Sub, Pow, At, Sum;
    var v := Mul(w, w);
    var even, odd := Sum(x, o, 2 * s, v, k, h), Sum(x, o + s, 2 * s, v, k, h);
    SumSplit(x, o, s, w, k, h);
    SumSplit(x, o, s, w, k + h, h);
    SumPeriodic(x, o, 2 * s, v, k, h, h);
    SumPeriodic(x, o + s, 2 * s, v, k, h, h);
    MulComm(odd, Pow(w, k));
    PowAdd(w, h, k);
    MulAssoc(MINUS_ONE, Pow(w, k), odd);
    AddNegative(even, Mul(odd, Pow(w, k)));
  }

  /** One butterfly joins two half blocks into one block. */
  lemma BlockButterfly(x: seq<Complex>, w: nat -> Complex, m: nat, l: nat, b: nat, k: nat)
    requires l < m && Twiddles(w, Pow2(m)) && k < Pow2(l)
    ensures var a, t := Block(x, w, m, l, 2 * b, k), Mul(Block(x, w, m, l, 2 * b + 1, k), Pow(w(2 * Pow2(l)), k));
            Block(x, w, m, l + 1, b, k) == Add(a, t) && Block(x, w, m, l + 1, b, k + Pow2(l)) == Sub(a, t)
  {
    hide Mul, Add, Sub, Pow, At, Sum, Rev, Pow2, Twiddles;
    LevelFits(l, m);
    HalfTurn(w, Pow2(m), l);
    Levels(w, m, l);
    RevHalves(m - l, b);
    HalfSums(x, Rev(m - l - 1, b), Pow2(m - l - 1), w(2 * Pow2(l)), k, Pow2(l));
  }

  /** How a level is related to the next one. */
  lemma Levels(w: nat -> Complex, m: nat, l: nat)
    requires l < m && Twiddles(w, Pow2(m)) && 2 * Pow2(l) <= Pow2(m)
    ensures Pow2(l + 1) == 2 * Pow2(l) && Pow2(m - l) == 2 * Pow2(m - l - 1)
    ensures Mul(w(2 * Pow2(l)), w(2 * Pow2(l))) == w(Pow2(l))
  {
    hide Mul;
  }

  lemma StageAt(x: seq<Complex>, w: nat -> Complex, m: nat, l: nat, b: nat, r: nat)
    requires l <= m && r < Pow2(l)
    ensures Stage(x, w, m, l, b * Pow2(l) + r) == Block(x, w, m, l, b, r)
  {
    hide Block;
    BlockIndex(b, Pow2(l), r);
  }

  lemma Butterfly(x: seq<Complex>, w: nat -> Complex, m: nat, l: nat, b: nat, k: nat)
    requires l < m && Twiddles(w, Pow2(m)) && k < Pow2(l)
    ensures var half := Pow2(l); var p := b * (2 * half) + k;
            var a, t := Stage(x, w, m, l, p), Mul(Stage(x, w, m, l, p + half), Pow(w(2 * half), k));
            Stage(x, w, m, l + 1, p) == Add(a, t) && Stage(x, w, m, l + 1, p + half) == Sub(a, t)
  {
    hide Mul, Add, Sub, Pow, Block, Stage, Twiddles;
    var half := Pow2(l);
    TwoHalves(b, half);
    StageAt(x, w, m, l, 2 * b, k);
    StageAt(x, w, m, l, 2 * b + 1, k);
    StageAt(x, w, m, l + 1, b, k);
    StageAt(x, w, m, l + 1, b, k + half);
    BlockButterfly(x, w, m, l, b, k);
  }

  lemma TwoHalves(b: nat, half: nat)
    ensures b * (2 * half) == 2 * b * half && b * (2 * half) + half == (2 * b + 1) * half
  {}

  lemma {:induction false} LevelFits(l: nat, m: nat)
    requires l <= m
    ensures l < m <==> 2 * Pow2(l) <= Pow2(m)
  {
    if l + 1 < m {
      LevelFits(l, m - 1);
    }
  }

  /** The positions that the current pass has already joined. */
  ghost predicate Joined(p: int, start: int, half: int, k: int) {
    p < start || start <= p < start + k || start + half <= p < start + half + k
  }

  ghost function Stages(x: seq<Complex>, w: nat -> Complex, m: nat, l: nat): (r: seq<Complex>)
    requires l <= m
    ensures |r| == |x| && forall p :: 0 <= p < |r| ==> r[p] == Stage(x, w, m, l, p)
  {
    seq(|x|, p requires 0 <= p < |x| => Stage(x, w, m, l, p))
  }

  /** Before the first pass every position holds its one-sample transform. */
  lemma FirstStage(x: seq<Complex>, w: nat -> Complex, m: nat)
    requires |x| == Pow2(m)
    ensures Stages(x, w, m, 0) == Reversed(m, x)
  {
    hide Block, Rev, Stage;
    forall p | 0 <= p < |x|
      ensures Stage(x, w, m, 0, p) == Reversed(m, x)[p]
    {
      StageAt(x, w, m, 0, p, 0);
      OneSample(x, w, m, p);
    }
  }

  lemma OneSample(x: seq<Complex>, w: nat -> Complex, m: nat, p: nat)
    requires |x| == Pow2(m) && p < |x|
    ensures Block(x, w, m, 0, p, 0) == x[Rev(m, p)]
  {
    hide Rev;
    var a := At(x, Rev(m, p));
    assert Sum(x, Rev(m, p), Pow2(m), w(1), 0, 1) == Add(ZERO, Mul(a, ONE));
  }

  /** After the last pass every position holds its transform of the whole input. */
  lemma LastStage(x: seq<Complex>, w: nat -> Complex, m: nat)
    requires |x| == Pow2(m)
    ensures Stages(x, w, m, m) == Dft(x, w(|x|))
  {
    hide Sum;
    forall p | 0 <= p < |x|
      ensures Stage(x, w, m, m, p) == Dft(x, w(|x|))[p]
    {
      BlockIndex(0, Pow2(m), p);
    }
  }

  lemma {:induction false} PowersMultiply(i: nat, j: nat)
    ensures Pow2(i + j) == Pow2(i) * Pow2(j)
  {
    if i > 0 {
      PowersMultiply(i - 1, j);
      assert i - 1 + j == i + j - 1;
    }
  }

  /** One pass of butterflies: blocks of `size` from pairs of half blocks. */
  method Pass(x: array<Complex>, w: nat -> Complex, size: nat, ghost x0: seq<Complex>, ghost m: nat, ghost l: nat)
    requires l < m && x.Length == Pow2(m) && size == 2 * Pow2(l) && Twiddles(w, x.Length)
    requires |x0| == x.Length && x[..] == Stages(x0, w, m, l)
    modifies x
    ensures x[..] == Stages(x0, w, m, l + 1)
  {
    hide Mul, Add, Sub, Pow, Stage, Stages, Twiddles;
    assert forall p :: 0 <= p < x.Length ==> x[p] == x[..][p];
    var n, half, root := x.Length, size / 2, w(size);
    PowersMultiply(m - l - 1, l + 1);
    ghost var blocks, b := Pow2(m - l - 1), 0;
    var start := 0;
    while start < n
      invariant 0 <= b <= blocks && start == b * size && n == blocks * size
      invariant forall p :: 0 <= p < n ==> x[p] == Stage(x0, w, m, if Joined(p, start, half, 0) then l + 1 else l, p)
      decreases blocks - b
    {
      BlockFits(b, blocks, size);
      JoinBlock(x, root, start, half, w, x0, m, l, b);
      start := start + size;
      b := b + 1;
    }
  }

  /** The butterflies of one block; the powers of the twiddle are accumulated in wk. */
  method JoinBlock(x: array<Complex>, root: Complex, start: nat, half: nat,
                   ghost w: nat -> Complex, ghost x0: seq<Complex>, ghost m: nat, ghost l: nat, ghost b: nat)
    requires l < m && x.Length == Pow2(m) && Twiddles(w, x.Length) && half == Pow2(l) && root == w(2 * half)
    requires start == b * (2 * half) && start + 2 * half <= x.Length
    requires forall p :: 0 <= p < x.Length ==>
               x[p] == Stage(x0, w, m, if Joined(p, start, half, 0) then l + 1 else l, p)
    modifies x
    ensures forall p :: 0 <= p < x.Length ==>
              x[p] == Stage(x0, w, m, if Joined(p, start, half, half) then l + 1 else l, p)
  {
    hide Mul, Add, Sub, Stage, Twiddles, Pow2;
    var wk := ONE;
    for k := 0 to half
      invariant wk == Pow(root, k)
      invariant forall p :: 0 <= p < x.Length ==>
                  x[p] == Stage(x0, w, m, if Joined(p, start, half, k) then l + 1 else l, p)
    {
      Butterfly(x0, w, m, l, b, k);
      var t := Mul(x[start + k + half], wk);
      x[start + k], x[start + k + half] := Add(x[start + k], t), Sub(x[start + k], t);
      wk := Mul(wk, root);
    }
  }

  lemma BlockFits(b: nat, blocks: nat, size: nat)
    requires b * size < blocks * size
    ensures b < blocks && b * size + size <= blocks * size && (b + 1) * size == b * size + size
  {
    var rest: int := blocks - b;
    assert rest * size == blocks * size - b * size;
    assert rest > 0;
    assert (rest - 1) * size >= 0;
  }

  /**
   * The transform in place: bit reversal, then one pass of butterflies for each block size.
   * w gives each stage its twiddle; the powers of it are accumulated in wk.
   */
  method Transform(x: array<Complex>, w: nat -> Complex)
    requires IsPow2(x.Length) && Twiddles(w, x.Length)
    modifies x
    ensures x[..] == Dft(old(x[..]), w(x.Length))
  {
    hide Mul, Add, Sub, Pow, Stage, Stages, Twiddles, Dft, Reversed;
    ghost var m: nat :| Pow2(m) == x.Length;
    ghost var x0 := x[..];
    var n := x.Length;
    ReverseInPlace(x, m);
    FirstStage(x0, w, m);
    var size := 2;
    ghost var l := 0;
    LevelFits(l, m);
    while size <= n
      invariant l <= m && size == 2 * Pow2(l) && (l < m <==> size <= n)
      invariant x[..] == Stages(x0, w, m, l)
      decreases m - l
    {
      Pass(x, w, size, x0, m, l);
      size := 2 * size;
      l := l + 1;
      LevelFits(l, m);
    }
    LastStage(x0, w, m);
  }
}
