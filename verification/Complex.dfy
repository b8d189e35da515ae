/** Complex numbers in exact arithmetic, with the ring laws the transform needs. */
module ComplexNumbers {

  datatype Complex = Complex(re: real, im: real)

  const ZERO := Complex(0.0, 0.0)
  const ONE := Complex(1.0, 0.0)
  const MINUS_ONE := Complex(-1.0, 0.0)

  function Add(a: Complex, b: Complex): Complex {
    Complex(a.re + b.re, a.im + b.im)
  }

  function Sub(a: Complex, b: Complex): Complex {
    Complex(a.re - b.re, a.im - b.im)
  }

  function Mul(a: Complex, b: Complex): Complex {
    Complex(a.re * b.re - a.im * b.im, a.re * b.im + a.im * b.re)
  }

  function Pow(w: Complex, k: nat): Complex {
    if k == 0 then ONE else Mul(Pow(w, k - 1), w)
  }

  /** The square of the absolute value. */
  function Power(z: Complex): real { z.re * z.re + z.im * z.im }

  lemma MulComm(a: Complex, b: Complex)
    ensures Mul(a, b) == Mul(b, a)
  {}

  lemma MulAssoc(a: Complex, b: Complex, c: Complex)
    ensures Mul(Mul(a, b), c) == Mul(a, Mul(b, c))
  {}

  lemma MulOne(a: Complex)
    ensures Mul(a, ONE) == a && Mul(ONE, a) == a
    ensures Sub(ZERO, a) == Mul(MINUS_ONE, a) == Mul(a, MINUS_ONE)
  {}

  lemma MulAdd(a: Complex, b: Complex, c: Complex)
    ensures Mul(a, Add(b, c)) == Add(Mul(a, b), Mul(a, c))
  {}

  lemma AddInterchange(a: Complex, b: Complex, c: Complex, d: Complex)
    ensures Add(Add(a, b), Add(c, d)) == Add(Add(a, c), Add(b, d))
    ensures Add(Add(Add(a, b), c), d) == Add(Add(a, c), Add(b, d))
  {}

  lemma AddNegative(a: Complex, b: Complex)
    ensures Add(a, Mul(MINUS_ONE, b)) == Sub(a, b)
  {}

  lemma {:induction false} PowAdd(w: Complex, i: nat, j: nat)
    ensures Pow(w, i + j) == Mul(Pow(w, i), Pow(w, j))
  {
    if j == 0 {
      MulOne(Pow(w, i));
    } else {
      PowAdd(w, i, j - 1);
      hide Mul;
      assert Pow(w, i + j) == Mul(Pow(w, i + j - 1), w);
      MulAssoc(Pow(w, i), Pow(w, j - 1), w);
    }
  }

  lemma {:induction false} PowMul(w: Complex, i: nat, j: nat)
    ensures 0 <= i * j && Pow(w, i * j) == Pow(Pow(w, i), j)
  {
    if j > 0 {
      PowMul(w, i, j - 1);
      assert i * j == i * (j - 1) + i;
      PowAdd(w, i * (j - 1), i);
    }
  }

  lemma {:induction false} PowOne(k: nat)
    ensures Pow(ONE, k) == ONE
  {
    hide Mul;
    if k > 0 {
      PowOne(k - 1);
      MulOne(ONE);
    }
  }

  lemma PowTwo(w: Complex)
    ensures Pow(w, 1) == w && Pow(w, 2) == Mul(w, w)
  {
    hide Mul;
    MulOne(w);
    assert Pow(w, 1) == Mul(Pow(w, 0), w);
  }
}
