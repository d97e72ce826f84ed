/** The digital low-pass filter that smooths every joint command of the walking
    controllers: its coefficients, its update step, and why it settles. */
module LowPassFilter {
  import opened Arithmetic

  datatype Coeffs = Coeffs(in1: real, in2: real, in3: real, out1: real, out2: real)

  // The two latest inputs and the two latest outputs, newest first.
  datatype Memory = Memory(x1: real, x2: real, y1: real, y2: real)

  function Den(wc: real, ts: real): real {
    2500.0 * ts * ts * wc * wc + 7071.0 * ts * wc + 10000.0
  }

  lemma DenPositive(wc: real, ts: real)
    ensures Den(wc, ts) > 0.0
  {
    var x := ts * wc;
    assert 2500.0 * ts * ts * wc * wc == 2500.0 * (x * x);
    var z := x + 1.4142;
    assert z * z >= 0.0;
    assert z * z == x * x + 2.8284 * x + 1.4142 * 1.4142;
  }

  function CoeffsOf(wc: real, ts: real): Coeffs {
    DenPositive(wc, ts);
    var den := Den(wc, ts);
    Coeffs(
      2500.0 * ts * ts * wc * wc / den,
      5000.0 * ts * ts * wc * wc / den,
      2500.0 * ts * ts * wc * wc / den,
      -(5000.0 * ts * ts * wc * wc - 20000.0) / den,
      -(2500.0 * ts * ts * wc * wc - 7071.0 * ts * wc + 10000.0) / den)
  }

  function Output(c: Coeffs, m: Memory, u: real): real {
    c.in1 * u + c.in2 * m.x1 + c.in3 * m.x2 + c.out1 * m.y1 + c.out2 * m.y2
  }

  function Step(c: Coeffs, m: Memory, u: real): Memory {
    Memory(u, m.x1, Output(c, m, u), m.y1)
  }

  function Constant(u: real): Memory {
    Memory(u, u, u, u)
  }

  function Run(c: Coeffs, m: Memory, us: seq<real>): Memory
    decreases |us|
  {
    if us == [] then m else Run(c, Step(c, m, us[0]), us[1..])
  }

  class DigitalLpFilter {
    const inPrev: array<real>
    const outPrev: array<real>
    var coeffs: Coeffs
    var lpfOut: real
    var wc: real
    var ts: real

    ghost predicate Valid()
      reads this
    {
      inPrev.Length == 2 && outPrev.Length == 2 && inPrev != outPrev && coeffs == CoeffsOf(wc, ts)
    }

    function Mem(): Memory
      requires Valid()
      reads this, inPrev, outPrev
    {
      Memory(inPrev[0], inPrev[1], outPrev[0], outPrev[1])
    }

    // The output register is left as it was found: nothing has been filtered yet.
    constructor (wc: real, ts: real)
      ensures Valid() && fresh(inPrev) && fresh(outPrev)
      ensures this.wc == wc && this.ts == ts
      ensures Mem() == Constant(0.0)
    {
      inPrev := new real[2](_ => 0.0);
      outPrev := new real[2](_ => 0.0);
      this.wc := wc;
      this.ts := ts;
      coeffs := CoeffsOf(wc, ts);
    }

    method Input(u: real)
      requires Valid()
      modifies this`lpfOut, inPrev, outPrev
      ensures Valid()
      ensures Mem() == Step(coeffs, old(Mem()), u)
      ensures lpfOut == Output(coeffs, old(Mem()), u)
    {
      hide CoeffsOf;
      lpfOut := coeffs.in1 * u + coeffs.in2 * inPrev[0] + coeffs.in3 * inPrev[1]
                + coeffs.out1 * outPrev[0] + coeffs.out2 * outPrev[1];
      inPrev[1] := inPrev[0];
      inPrev[0] := u;
      outPrev[1] := outPrev[0];
      outPrev[0] := lpfOut;
    }

    method SetWc(wc: real)
      requires Valid()
      modifies this`wc, this`coeffs
      ensures Valid() && this.wc == wc && Mem() == old(Mem())
    {
      this.wc := wc;
      coeffs := CoeffsOf(wc, ts);
    }

    method SetTs(ts: real)
      requires Valid()
      modifies this`ts, this`coeffs
      ensures Valid() && this.ts == ts && Mem() == old(Mem())
    {
      this.ts := ts;
      coeffs := CoeffsOf(wc, ts);
    }

    method Clear()
      requires Valid()
      modifies inPrev, outPrev
      ensures Valid() && Mem() == Constant(0.0)
    {
      inPrev[1] := 0.0;
      inPrev[0] := 0.0;
      outPrev[1] := 0.0;
      outPrev[0] := 0.0;
    }

    method Init(initData: real)
      requires Valid()
      modifies inPrev, outPrev
      ensures Valid() && Mem() == Constant(initData)
    {
      inPrev[1] := initData;
      inPrev[0] := initData;
      outPrev[1] := initData;
      outPrev[0] := initData;
    }
  }

  // ---------------------------------------------------------------- coefficients

  lemma SumOverDen(a: real, b: real, c: real, e: real, f: real, d: real)
    requires d != 0.0
    ensures a / d + b / d + c / d + e / d + f / d == (a + b + c + e + f) / d
  {
  }

  // A steady input is passed through unchanged: the coefficients sum to one.
  lemma UnitGain(wc: real, ts: real)
    ensures var c := CoeffsOf(wc, ts); c.in1 + c.in2 + c.in3 + c.out1 + c.out2 == 1.0
  {
    DenPositive(wc, ts);
    var d := Den(wc, ts);
    var q := 2500.0 * ts * ts * wc * wc;
    var r := 7071.0 * ts * wc;
    assert 5000.0 * ts * ts * wc * wc == 2.0 * q;
    SumOverDen(q, 2.0 * q, q, -(2.0 * q - 20000.0), -(q - r + 10000.0), d);
  }

  // The analogue prototype s^2 + sqrt(2) wc s + wc^2 under the bilinear substitution
  // s = (2 / ts)(1 - p)/(1 + p), cleared of denominators; p stands for a one-sample delay.
  function Prototype(x: real, p: real): real {
    4.0 * ((1.0 - p) * (1.0 - p)) + 2.8284 * x * ((1.0 - p) * (1.0 + p)) + x * x * ((1.0 + p) * (1.0 + p))
  }

  function Feed(c: Coeffs, p: real): real {
    c.in1 + c.in2 * p + c.in3 * p * p
  }

  function Feedback(c: Coeffs, p: real): real {
    1.0 - c.out1 * p - c.out2 * p * p
  }

  // Common polynomial: both the prototype and the feedback side are multiples of it.
  function Poly(y: real, r: real, p: real): real {
    (2500.0 * y + r + 10000.0) + (5000.0 * y - 20000.0) * p + (2500.0 * y - r + 10000.0) * (p * p)
  }

  lemma PrototypeForm(x: real, p: real)
    ensures 2500.0 * Prototype(x, p) == Poly(x * x, 7071.0 * x, p)
  {
  }

  lemma FeedbackForm(c: Coeffs, y: real, r: real, p: real, d: real)
    requires d == 2500.0 * y + r + 10000.0
    requires c.out1 * d == 20000.0 - 5000.0 * y
    requires c.out2 * d == -(2500.0 * y - r + 10000.0)
    ensures d * Feedback(c, p) == Poly(y, r, p)
  {
  }

  lemma FeedForm(c: Coeffs, g: real, p: real)
    requires c.in1 == 2500.0 * g && c.in2 == 5000.0 * g && c.in3 == 2500.0 * g
    ensures Feed(c, p) == 2500.0 * (g * ((1.0 + p) * (1.0 + p)))
  {
  }

  lemma TransferIdentity(feed: real, proto: real, back: real, g: real, w: real, y: real, d: real)
    requires feed == 2500.0 * (g * w) && 2500.0 * proto == d * back && g * d == y
    ensures feed * proto == y * w * back
  {
  }

  /** The five coefficients are the second-order Butterworth filter, discretised: both sides
      of input * prototype = wc^2-term * output agree for every delay p. */
  lemma MatchesButterworth(wc: real, ts: real, p: real)
    ensures var c, x := CoeffsOf(wc, ts), ts * wc;
            Feed(c, p) * Prototype(x, p) == x * x * ((1.0 + p) * (1.0 + p)) * Feedback(c, p)
  {
    DenPositive(wc, ts);
    CoeffsByDen(wc, ts);
    var c, x, d := CoeffsOf(wc, ts), ts * wc, Den(wc, ts);
    hide Prototype, Feed, Feedback, Poly, CoeffsOf, Den;
    var y, r, g := x * x, 7071.0 * x, x * x / d;
    Quotient(y, d);
    FeedForm(c, g, p);
    PrototypeForm(x, p);
    FeedbackForm(c, y, r, p, d);
    TransferIdentity(Feed(c, p), Prototype(x, p), Feedback(c, p), g, (1.0 + p) * (1.0 + p), y, d);
  }

  lemma CoeffsByDen(wc: real, ts: real)
    ensures var c, x, d := CoeffsOf(wc, ts), ts * wc, Den(wc, ts);
            && d == 2500.0 * (x * x) + 7071.0 * x + 10000.0 && d != 0.0
            && c.in1 == 2500.0 * (x * x / d) && c.in2 == 5000.0 * (x * x / d) && c.in3 == 2500.0 * (x * x / d)
            && c.out1 * d == 20000.0 - 5000.0 * (x * x)
            && c.out2 * d == -(2500.0 * (x * x) - 7071.0 * x + 10000.0)
  {
  }

  // ---------------------------------------------------------------- exponential response

  // The memory that has seen an input and an output shrinking by the factor p per sample into
  // the past, u and y being the latest.
  function Mode(p: real, u: real, y: real): Memory {
    Memory(u, p * u, y, p * y)
  }

  /** The difference equation realises the transfer function: an output y belongs to an input u
      on a mode of delay p exactly when Feedback * y = Feed * u. */
  lemma ModeTransfer(c: Coeffs, p: real, u: real, y: real)
    ensures Step(c, Mode(p, p * u, p * y), u) == Mode(p, u, y) <==> Feedback(c, p) * y == Feed(c, p) * u
  {
    FeedSpread(c, p, u);
    FeedbackSpread(c, p, y);
    hide Feed, Feedback;
  }

  lemma FeedSpread(c: Coeffs, p: real, u: real)
    ensures Feed(c, p) * u == c.in1 * u + c.in2 * (p * u) + c.in3 * (p * (p * u))
  {
  }

  lemma FeedbackSpread(c: Coeffs, p: real, y: real)
    ensures Feedback(c, p) * y == y - c.out1 * (p * y) - c.out2 * (p * (p * y))
  {
  }

  function Growing(r: real, u: real, n: nat): (us: seq<real>)
    ensures |us| == n
    decreases n
  {
    if n == 0 then [] else [r * u] + Growing(r, r * u, n - 1)
  }

  function Grown(r: real, u: real, n: nat): real
    decreases n
  {
    if n == 0 then u else Grown(r, r * u, n - 1)
  }

  lemma {:induction false} Scaled(r: real, a: real, b: real, u: real, y: real)
    requires a * y == b * u
    ensures a * (r * y) == b * (r * u)
  {
    assert a * (r * y) == r * (a * y) && b * (r * u) == r * (b * u);
  }

  lemma ModeStep(c: Coeffs, r: real, p: real, u: real, y: real)
    requires r * p == 1.0 && Feedback(c, p) * y == Feed(c, p) * u
    ensures Step(c, Mode(p, u, y), r * u) == Mode(p, r * u, r * y)
    ensures Feedback(c, p) * (r * y) == Feed(c, p) * (r * u)
  {
    Scaled(r, Feedback(c, p), Feed(c, p), u, y);
    ModeTransfer(c, p, r * u, r * y);
    assert p * (r * u) == u && p * (r * y) == y;
  }

  lemma {:induction false} ModeRun(c: Coeffs, r: real, p: real, u: real, y: real, n: nat)
    requires r * p == 1.0 && Feedback(c, p) * y == Feed(c, p) * u
    ensures Run(c, Mode(p, u, y), Growing(r, u, n)) == Mode(p, Grown(r, u, n), Grown(r, y, n))
    decreases n
  {
    hide Feed, Feedback, Mode, Step;
    if n > 0 {
      ModeStep(c, r, p, u, y);
      assert Growing(r, u, n)[1..] == Growing(r, r * u, n - 1);
      ModeRun(c, r, p, r * u, r * y, n - 1);
    }
  }

  // The gain relation of the Butterworth prototype at the delay p.
  ghost predicate PrototypeGain(x: real, p: real, u: real, y: real) {
    Prototype(x, p) * y == x * x * ((1.0 + p) * (1.0 + p)) * u
  }

  lemma SameGain(feed: real, back: real, proto: real, w: real, u: real, y: real)
    requires feed * proto == w * back && back != 0.0 && proto != 0.0
    ensures back * y == feed * u <==> proto * y == w * u
  {
    assert proto * (back * y - feed * u) == back * (proto * y - w * u) by {
      assert proto * (back * y) == back * (proto * y);
      assert proto * (feed * u) == (feed * proto) * u == (w * back) * u == back * (w * u);
    }
    ZeroTogether(proto, back * y - feed * u, back, proto * y - w * u);
  }

  lemma ZeroTogether(a: real, x: real, b: real, y: real)
    requires a != 0.0 && b != 0.0 && a * x == b * y
    ensures x == 0.0 <==> y == 0.0
  {
  }

  /** Fed any exponential, r^n u, for as long as one likes, the filter answers r^n y with the gain
      of the analogue Butterworth prototype at that rate, away from its poles. */
  lemma RespondsAsButterworth(wc: real, ts: real, r: real, p: real, u: real, y: real, n: nat)
    requires r * p == 1.0 && Feedback(CoeffsOf(wc, ts), p) != 0.0 && Prototype(ts * wc, p) != 0.0
    requires PrototypeGain(ts * wc, p, u, y)
    ensures Run(CoeffsOf(wc, ts), Mode(p, u, y), Growing(r, u, n)) == Mode(p, Grown(r, u, n), Grown(r, y, n))
  {
    hide CoeffsOf, Feed, Feedback, Prototype;
    var c, x := CoeffsOf(wc, ts), ts * wc;
    MatchesButterworth(wc, ts, p);
    SameGain(Feed(c, p), Feedback(c, p), Prototype(x, p), x * x * ((1.0 + p) * (1.0 + p)), u, y);
    ModeRun(c, r, p, u, y, n);
  }

  /** And no other gain will do: the step keeps a mode exactly at the prototype's gain. */
  lemma OnlyButterworthGain(wc: real, ts: real, p: real, u: real, y: real)
    requires Feedback(CoeffsOf(wc, ts), p) != 0.0 && Prototype(ts * wc, p) != 0.0
    ensures Step(CoeffsOf(wc, ts), Mode(p, p * u, p * y), u) == Mode(p, u, y) <==> PrototypeGain(ts * wc, p, u, y)
  {
    hide CoeffsOf, Feed, Feedback, Prototype, Step, Mode;
    var c, x := CoeffsOf(wc, ts), ts * wc;
    MatchesButterworth(wc, ts, p);
    ModeTransfer(c, p, u, y);
    SameGain(Feed(c, p), Feedback(c, p), Prototype(x, p), x * x * ((1.0 + p) * (1.0 + p)), u, y);
  }

  ghost predicate Schur(c: Coeffs) {
    -1.0 < c.out2 < 0.0 && c.out1 < 1.0 - c.out2 && -c.out1 < 1.0 - c.out2
  }

  // The numerators of the stability margins, with q = 2500x^2 and r = 7071x.
  lemma Margins(x: real, q: real, r: real)
    requires x > 0.0 && q == 2500.0 * (x * x) && r == 7071.0 * x
    ensures q > 0.0 && r > 0.0 && q - r + 10000.0 > 0.0
  {
    MulPositive(x, x);
    MulPositive(2500.0, x * x);
    SquareZero(50.0 * x - 71.0);
    assert (50.0 * x - 71.0) * (50.0 * x - 71.0) == q - 7100.0 * x + 5041.0;
    assert q - r + 10000.0 == q - 7100.0 * x + 5041.0 + 29.0 * x + 4959.0;
  }

  lemma SchurFromMargins(c: Coeffs, q: real, r: real, d: real)
    requires q > 0.0 && r > 0.0 && q - r + 10000.0 > 0.0 && d == q + r + 10000.0
    requires c.in1 * d == q
    requires c.out1 * d == 20000.0 - 2.0 * q
    requires c.out2 * d == -(q - r + 10000.0)
    ensures Schur(c) && 0.0 < c.in1 < 1.0
  {
    Positive(c.in1, d, q);
    Positive(1.0 - c.in1, d, r + 10000.0);
    Positive(1.0 + c.out2, d, 2.0 * r);
    Positive(-c.out2, d, q - r + 10000.0);
    Positive(1.0 - c.out2 - c.out1, d, 4.0 * q);
    Positive(1.0 - c.out2 + c.out1, d, 40000.0);
  }

  /** The filter's poles are inside the unit circle for every cut-off and period
      whose product is positive. */
  lemma SchurStable(wc: real, ts: real)
    requires wc * ts > 0.0
    ensures Schur(CoeffsOf(wc, ts)) && 0.0 < CoeffsOf(wc, ts).in1 < 1.0
  {
    DenPositive(wc, ts);
    var d := Den(wc, ts);
    var x := ts * wc;
    var q := 2500.0 * ts * ts * wc * wc;
    var r := 7071.0 * ts * wc;
    assert q == 2500.0 * (x * x) && r == 7071.0 * x;
    assert 5000.0 * ts * ts * wc * wc == 2.0 * q;
    Margins(x, q, r);
    Quotient(q, d);
    Quotient(-(2.0 * q - 20000.0), d);
    Quotient(-(q - r + 10000.0), d);
    SchurFromMargins(CoeffsOf(wc, ts), q, r, d);
  }

  // ---------------------------------------------------------------- Lyapunov function

  function Cross(c: Coeffs): real
    requires c.out2 != 1.0
  {
    c.out1 * c.out2 / (1.0 - c.out2)
  }

  function V(c: Coeffs, e1: real, e2: real): real
    requires c.out2 != 1.0
  {
    e1 * e1 + 2.0 * Cross(c) * e1 * e2 + c.out2 * c.out2 * e2 * e2
  }

  function Kappa(c: Coeffs): real
    requires c.out2 != 1.0
  {
    (1.0 + c.out2) * (1.0 - c.out2 - c.out1) * (1.0 - c.out2 + c.out1) / (1.0 - c.out2)
  }

  lemma KappaPositive(c: Coeffs)
    requires Schur(c)
    ensures Kappa(c) > 0.0
  {
    var p, q, r, w := 1.0 + c.out2, 1.0 - c.out2 - c.out1, 1.0 - c.out2 + c.out1, 1.0 - c.out2;
    MulPositive(p, q);
    MulPositive(p * q, r);
    Quotient(p * q * r, w);
    Positive(Kappa(c), w, p * q * r);
  }

  lemma SquareBelow(a: real, w: real)
    requires -w < a < w
    ensures w * w - a * a > 0.0
  {
  }

  lemma CrossBelow(c: Coeffs)
    requires Schur(c)
    ensures c.out2 * c.out2 - Cross(c) * Cross(c) > 0.0
  {
    var a1, a2, w, b := c.out1, c.out2, 1.0 - c.out2, Cross(c);
    Quotient(a1 * a2, w);
    SquareBelow(a1, w);
    SquareZero(a2);
    MulPositive(a2 * a2, w * w - a1 * a1);
    MulPositive(w, w);
    ScaledGap(a1, a2, w, b);
    Positive(a2 * a2 - b * b, w * w, a2 * a2 * (w * w - a1 * a1));
  }

  lemma ScaledGap(a1: real, a2: real, w: real, b: real)
    requires b * w == a1 * a2
    ensures (a2 * a2 - b * b) * (w * w) == a2 * a2 * (w * w - a1 * a1)
  {
  }

  lemma CompleteSquare(b: real, a: real, e1: real, e2: real)
    ensures e1 * e1 + 2.0 * b * e1 * e2 + a * a * e2 * e2
         == (e1 + b * e2) * (e1 + b * e2) + (a * a - b * b) * (e2 * e2)
  {
  }

  lemma PositiveDefinite(c: Coeffs, e1: real, e2: real)
    requires Schur(c)
    ensures V(c, e1, e2) >= 0.0
    ensures V(c, e1, e2) == 0.0 <==> e1 == 0.0 && e2 == 0.0
  {
    CrossBelow(c);
    var b := Cross(c);
    var g := c.out2 * c.out2 - b * b;
    CompleteSquare(b, c.out2, e1, e2);
    SquareZero(e1 + b * e2);
    SquareZero(e2);
    if e2 != 0.0 {
      MulPositive(g, e2 * e2);
    }
  }

  lemma CrossIdentity(a1: real, a2: real, w: real, b: real)
    requires w == 1.0 - a2 && b * w == a1 * a2
    ensures a1 * a2 + b * a2 == b
  {
  }

  lemma KappaIdentity(a1: real, a2: real, w: real, b: real, k: real)
    requires w == 1.0 - a2 && w != 0.0 && b * w == a1 * a2
    requires k * w == (1.0 + a2) * (1.0 - a2 - a1) * (1.0 - a2 + a1)
    ensures k == 1.0 - a1 * a1 - 2.0 * (b * a1) - a2 * a2
  {
    calc {
      (b * a1) * w;
      (b * w) * a1;
      (a1 * a2) * a1;
    }
    var k' := 1.0 - a1 * a1 - 2.0 * (b * a1) - a2 * a2;
    calc {
      k' * w;
      (1.0 - a1 * a1 - a2 * a2) * w - 2.0 * ((b * a1) * w);
      (1.0 - a1 * a1 - a2 * a2) * (1.0 - a2) - 2.0 * ((a1 * a2) * a1);
      (1.0 + a2) * (1.0 - a2 - a1) * (1.0 - a2 + a1);
      k * w;
    }
    Cancel(k', k, w);
  }

  lemma DropIdentity(a1: real, a2: real, b: real, k: real, e1: real, e2: real)
    requires a1 * a2 + b * a2 == b
    requires k == 1.0 - a1 * a1 - 2.0 * (b * a1) - a2 * a2
    ensures var e0 := a1 * e1 + a2 * e2;
            e0 * e0 + 2.0 * b * e0 * e1 + a2 * a2 * e1 * e1
            == e1 * e1 + 2.0 * b * e1 * e2 + a2 * a2 * e2 * e2 - k * (e1 * e1)
  {
  }

  // One step of the error recursion lowers V by exactly kappa * e1 * e1.
  lemma ExactDrop(c: Coeffs, e1: real, e2: real)
    requires c.out2 != 1.0
    ensures V(c, c.out1 * e1 + c.out2 * e2, e1) == V(c, e1, e2) - Kappa(c) * (e1 * e1)
  {
    var a1, a2, w := c.out1, c.out2, 1.0 - c.out2;
    Quotient(a1 * a2, w);
    Quotient((1.0 + a2) * (1.0 - a2 - a1) * (1.0 - a2 + a1), w);
    CrossIdentity(a1, a2, w, Cross(c));
    KappaIdentity(a1, a2, w, Cross(c), Kappa(c));
    DropIdentity(a1, a2, Cross(c), Kappa(c), e1, e2);
  }

  // ---------------------------------------------------------------- whole runs

  // What V makes of the difference between two filters' latest outputs.
  function Energy(c: Coeffs, m: Memory, n: Memory): real
    requires c.out2 != 1.0
  {
    V(c, m.y1 - n.y1, m.y2 - n.y2)
  }

  // The squared output differences met along a common input, one per sample.
  function Spread(c: Coeffs, m: Memory, n: Memory, us: seq<real>): real
    decreases |us|
  {
    if us == [] then 0.0
    else Sq(m.y1 - n.y1) + Spread(c, Step(c, m, us[0]), Step(c, n, us[0]), us[1..])
  }

  // How many of those samples are at least eps apart.
  function Excursions(c: Coeffs, m: Memory, n: Memory, eps: real, us: seq<real>): nat
    decreases |us|
  {
    if us == [] then 0
    else (if m.y1 - n.y1 >= eps || n.y1 - m.y1 >= eps then 1 else 0)
         + Excursions(c, Step(c, m, us[0]), Step(c, n, us[0]), eps, us[1..])
  }

  lemma StepDrop(c: Coeffs, m: Memory, n: Memory, u: real)
    requires c.out2 != 1.0
    requires m.x1 == n.x1 && m.x2 == n.x2
    ensures Energy(c, Step(c, m, u), Step(c, n, u)) == Energy(c, m, n) - Kappa(c) * Sq(m.y1 - n.y1)
  {
    var e1, e2 := m.y1 - n.y1, m.y2 - n.y2;
    assert Output(c, m, u) - Output(c, n, u) == c.out1 * e1 + c.out2 * e2;
    ExactDrop(c, e1, e2);
  }

  lemma EnergyNonNegative(c: Coeffs, m: Memory, n: Memory)
    requires Schur(c)
    ensures Energy(c, m, n) >= 0.0
  {
    PositiveDefinite(c, m.y1 - n.y1, m.y2 - n.y2);
  }

  /** Two filters that have seen the same two latest inputs, then any common input:
      the energy lost is exactly kappa times the squared output differences. */
  lemma {:induction false} Contraction(c: Coeffs, m: Memory, n: Memory, us: seq<real>)
    requires Schur(c)
    requires m.x1 == n.x1 && m.x2 == n.x2
    ensures Kappa(c) * Spread(c, m, n, us) == Energy(c, m, n) - Energy(c, Run(c, m, us), Run(c, n, us))
    ensures Kappa(c) * Spread(c, m, n, us) <= Energy(c, m, n)
    decreases |us|
  {
    hide Kappa, Energy, Sq, V, Output;
    if us != [] {
      var m', n' := Step(c, m, us[0]), Step(c, n, us[0]);
      StepDrop(c, m, n, us[0]);
      Contraction(c, m', n', us[1..]);
      Distribute(Kappa(c), Sq(m.y1 - n.y1), Spread(c, m', n', us[1..]));
    }
    EnergyNonNegative(c, Run(c, m, us), Run(c, n, us));
  }

  lemma SquareMonotone(e: real, eps: real)
    requires eps > 0.0 && (e >= eps || -e >= eps)
    ensures Sq(e) >= Sq(eps)
  {
  }

  lemma CountOne(q: real, n: nat)
    ensures q * (1 + n) as real == q + q * n as real
  {
  }

  lemma {:induction false} ExcursionsBelowSpread(c: Coeffs, m: Memory, n: Memory, eps: real, us: seq<real>)
    requires eps > 0.0
    ensures Sq(eps) * Excursions(c, m, n, eps, us) as real <= Spread(c, m, n, us)
    decreases |us|
  {
    hide Sq, Output, Prod;
    if us != [] {
      var m', n' := Step(c, m, us[0]), Step(c, n, us[0]);
      ExcursionsBelowSpread(c, m', n', eps, us[1..]);
      SquareNonNegative(m.y1 - n.y1);
      if m.y1 - n.y1 >= eps || n.y1 - m.y1 >= eps {
        SquareMonotone(m.y1 - n.y1, eps);
      }
      CountOne(Sq(eps), Excursions(c, m', n', eps, us[1..]));
    }
  }

  /** However long the run, the samples on which two such filters are at least eps
      apart are bounded by a number fixed at its start: old history is forgotten. */
  lemma FewExcursions(c: Coeffs, m: Memory, n: Memory, eps: real, us: seq<real>)
    requires Schur(c) && eps > 0.0
    requires m.x1 == n.x1 && m.x2 == n.x2
    ensures Kappa(c) * (Sq(eps) * Excursions(c, m, n, eps, us) as real) <= Energy(c, m, n)
  {
    hide Kappa, Energy, Sq, V, Output, Prod;
    Contraction(c, m, n, us);
    ExcursionsBelowSpread(c, m, n, eps, us);
    KappaPositive(c);
    ScaleLess(Kappa(c), Sq(eps) * Excursions(c, m, n, eps, us) as real, Spread(c, m, n, us));
  }

  lemma {:induction false} RunAppend(c: Coeffs, m: Memory, us: seq<real>, u: real)
    ensures Run(c, m, us + [u]) == Step(c, Run(c, m, us), u)
    decreases |us|
  {
    if us == [] {
      assert [] + [u] == [u] && [u][1..] == [];
    } else {
      assert (us + [u])[1..] == us[1..] + [u];
      RunAppend(c, Step(c, m, us[0]), us[1..], u);
    }
  }

  function Hold(u: real, n: nat): seq<real> {
    seq(n, _ => u)
  }

  lemma ConstantIsFixed(wc: real, ts: real, u: real)
    ensures Step(CoeffsOf(wc, ts), Constant(u), u) == Constant(u)
  {
    var c := CoeffsOf(wc, ts);
    UnitGain(wc, ts);
    assert Output(c, Constant(u), u) == (c.in1 + c.in2 + c.in3 + c.out1 + c.out2) * u;
  }

  lemma {:induction false} ConstantStays(wc: real, ts: real, u: real, n: nat)
    ensures Run(CoeffsOf(wc, ts), Constant(u), Hold(u, n)) == Constant(u)
    decreases n
  {
    if n > 0 {
      ConstantIsFixed(wc, ts, u);
      assert Hold(u, n)[1..] == Hold(u, n - 1);
      ConstantStays(wc, ts, u, n - 1);
    }
  }

  /** From any memory: once u has been the input for two samples, the squared errors of
      any number of further samples stay below the energy at that moment divided by kappa,
      and the samples off by eps or more are bounded in number. */
  lemma Settles(wc: real, ts: real, m: Memory, u: real, n: nat, eps: real)
    requires wc * ts > 0.0 && eps > 0.0
    ensures var c := CoeffsOf(wc, ts);
            var held := Step(c, Step(c, m, u), u);
            && Schur(c) && Kappa(c) > 0.0
            && Kappa(c) * Spread(c, held, Constant(u), Hold(u, n)) <= Energy(c, held, Constant(u))
            && Kappa(c) * (Sq(eps) * Excursions(c, held, Constant(u), eps, Hold(u, n)) as real)
               <= Energy(c, held, Constant(u))
            && Run(c, Constant(u), Hold(u, n)) == Constant(u)
  {
    hide Kappa, Energy, Sq, V, Output, Prod;
    SchurStable(wc, ts);
    var c := CoeffsOf(wc, ts);
    KappaPositive(c);
    ConstantStays(wc, ts, u, n);
    var held := Step(c, Step(c, m, u), u);
    Contraction(c, held, Constant(u), Hold(u, n));
    FewExcursions(c, held, Constant(u), eps, Hold(u, n));
  }

  // ---------------------------------------------------------------- the rate of settling

  // What is left of V after two steps, at most.
  function Rate(c: Coeffs): real
    requires c.out2 != 1.0
  {
    1.0 - Kappa(c) / 2.0
  }

  // The least V can make of a unit error in the latest output.
  function Floor(c: Coeffs): real
    requires c.out2 != 1.0
  {
    1.0 - Sq(c.out1 / (1.0 - c.out2))
  }

  // V seen through g = out1 / (1 - out2) and z = out2 * e2.
  function Form(g: real, e: real, z: real): real {
    e * e + 2.0 * (g * e * z) + z * z
  }

  lemma VForm(c: Coeffs, e1: real, e2: real)
    requires c.out2 != 1.0
    ensures var g, z := c.out1 / (1.0 - c.out2), c.out2 * e2;
            V(c, e1, e2) == Form(g, e1, z)
  {
    var w, g, z := 1.0 - c.out2, c.out1 / (1.0 - c.out2), c.out2 * e2;
    Quotient(c.out1, w);
    Quotient(c.out1 * c.out2, w);
    assert Cross(c) * w == g * c.out2 * w;
    Cancel(Cross(c), g * c.out2, w);
    assert Cross(c) * e1 * e2 == g * e1 * z;
    assert c.out2 * c.out2 * e2 * e2 == z * z;
  }

  lemma RatioBounds(c: Coeffs)
    requires Schur(c)
    ensures var g, a := c.out1 / (1.0 - c.out2), c.out1;
            && -1.0 < g < 1.0 && -2.0 < a < 2.0
            && (a >= 0.0 ==> a <= 2.0 * g <= 2.0 * a) && (a <= 0.0 ==> a >= 2.0 * g >= 2.0 * a)
  {
    var w, a := 1.0 - c.out2, c.out1;
    var g := a / w;
    Quotient(a, w);
    RatioWithin(g, a, w);
  }

  lemma RatioWithin(g: real, a: real, w: real)
    requires 1.0 < w < 2.0 && g * w == a && -w < a < w
    ensures -1.0 < g < 1.0
    ensures a >= 0.0 ==> a <= 2.0 * g <= 2.0 * a
    ensures a <= 0.0 ==> a >= 2.0 * g >= 2.0 * a
  {
    if g >= 0.0 {
      MulNonNegative(g, w - 1.0);
      MulNonNegative(g, 2.0 - w);
      assert g * (w - 1.0) == a - g && g * (2.0 - w) == 2.0 * g - a;
    } else {
      MulPositive(-g, w - 1.0);
      MulPositive(-g, 2.0 - w);
      assert (-g) * (w - 1.0) == g - a && (-g) * (2.0 - w) == a - 2.0 * g;
    }
    UnitRatio(g, a, w);
  }

  lemma UnitRatio(g: real, a: real, w: real)
    requires w > 1.0 && g * w == a && -w < a < w
    ensures -1.0 < g < 1.0
  {
    if g >= 1.0 {
      MulNonNegative(g - 1.0, w);
    } else if g <= -1.0 {
      MulNonNegative(-1.0 - g, w);
    }
  }

  lemma FloorPositive(c: Coeffs)
    requires Schur(c)
    ensures Floor(c) > 0.0
  {
    RatioBounds(c);
    SquareBelow(c.out1 / (1.0 - c.out2), 1.0);
  }

  lemma FloorSquare(g: real, e: real, z: real)
    ensures Form(g, e, z) == Prod(z + g * e, z + g * e) + (1.0 - Sq(g)) * Sq(e)
  {
  }

  lemma VAboveFloor(c: Coeffs, e1: real, e2: real)
    requires Schur(c)
    ensures V(c, e1, e2) >= Floor(c) * Sq(e1)
  {
    var g, z := c.out1 / (1.0 - c.out2), c.out2 * e2;
    VForm(c, e1, e2);
    FloorSquare(g, e1, z);
    SquareZero(z + g * e1);
  }

  lemma TwiceSquares(a: real, g: real, e: real, z: real, n: real)
    requires n == a * e + z
    ensures 2.0 * (Sq(e) + Sq(n)) - Form(g, e, z)
            == Sq(z + (2.0 * a - g) * e) + (1.0 + 2.0 * Sq(a) - Sq(2.0 * a - g)) * Sq(e)
  {
  }

  lemma SpareSquare(a: real, g: real)
    requires -2.0 < a < 2.0
    requires (a >= 0.0 ==> a <= 2.0 * g <= 2.0 * a) && (a <= 0.0 ==> a >= 2.0 * g >= 2.0 * a)
    ensures 1.0 + 2.0 * Sq(a) - Sq(2.0 * a - g) >= 0.0
  {
    var h := 2.0 * a - g;
    assert a >= 0.0 ==> 0.0 <= h <= 1.5 * a;
    assert a <= 0.0 ==> 1.5 * a <= h <= 0.0;
    SquareWithin(h, 1.5 * a);
    assert Sq(1.5 * a) == 2.25 * Sq(a);
    SquareWithin(a, 2.0);
    assert Sq(2.0) == 4.0;
  }

  lemma SquareWithin(h: real, b: real)
    requires -b <= h <= b || b <= h <= -b
    ensures Sq(h) <= Sq(b)
  {
    if b >= 0.0 {
      MulNonNegative(b - h, b + h);
    } else {
      MulNonNegative(h - b, -(b + h));
    }
    assert Sq(b) - Sq(h) == (b - h) * (b + h);
  }

  // V is at most twice the two errors it loses kappa times of in the next two steps.
  lemma VBelowSquares(c: Coeffs, e1: real, e2: real, e0: real)
    requires Schur(c) && e0 == c.out1 * e1 + c.out2 * e2
    ensures V(c, e1, e2) <= 2.0 * (Sq(e1) + Sq(e0))
  {
    hide Sq, V, Form;
    VForm(c, e1, e2);
    RatioBounds(c);
    BelowSquares(c.out1, c.out1 / (1.0 - c.out2), e1, c.out2 * e2, e0);
  }

  lemma BelowSquares(a: real, g: real, e: real, z: real, n: real)
    requires -2.0 < a < 2.0 && n == a * e + z
    requires (a >= 0.0 ==> a <= 2.0 * g <= 2.0 * a) && (a <= 0.0 ==> a >= 2.0 * g >= 2.0 * a)
    ensures Form(g, e, z) <= 2.0 * (Sq(e) + Sq(n))
  {
    hide Sq, Form;
    TwiceSquares(a, g, e, z, n);
    SpareSquare(a, g);
    SumOfSquares(z + (2.0 * a - g) * e, 1.0 + 2.0 * Sq(a) - Sq(2.0 * a - g), e);
  }

  lemma SumOfSquares(s: real, k: real, e: real)
    requires k >= 0.0
    ensures Sq(s) + k * Sq(e) >= 0.0
  {
    SquareNonNegative(s);
    SquareNonNegative(e);
    MulNonNegative(k, Sq(e));
  }

  lemma TwoStepsContract(c: Coeffs, m: Memory, n: Memory, u: real, u': real)
    requires Schur(c) && m.x1 == n.x1 && m.x2 == n.x2
    ensures Energy(c, Step(c, Step(c, m, u), u'), Step(c, Step(c, n, u), u')) <= Rate(c) * Energy(c, m, n)
  {
    hide Kappa, Sq, V, Output, Energy, Rate;
    var m', n' := Step(c, m, u), Step(c, n, u);
    RateIs(c);
    StepDrop(c, m, n, u);
    StepDrop(c, m', n', u');
    NextError(c, m, n, u);
    EnergyBelowSquares(c, m, n, m'.y1 - n'.y1);
    KappaPositive(c);
    HalfKappa(Kappa(c), Rate(c), Energy(c, m, n), Sq(m.y1 - n.y1), Sq(m'.y1 - n'.y1));
  }

  lemma EnergyBelowSquares(c: Coeffs, m: Memory, n: Memory, e0: real)
    requires Schur(c) && e0 == c.out1 * (m.y1 - n.y1) + c.out2 * (m.y2 - n.y2)
    ensures Energy(c, m, n) <= 2.0 * (Sq(m.y1 - n.y1) + Sq(e0))
  {
    hide V, Sq;
    VBelowSquares(c, m.y1 - n.y1, m.y2 - n.y2, e0);
  }

  lemma NextError(c: Coeffs, m: Memory, n: Memory, u: real)
    requires m.x1 == n.x1 && m.x2 == n.x2
    ensures Step(c, m, u).y1 - Step(c, n, u).y1 == c.out1 * (m.y1 - n.y1) + c.out2 * (m.y2 - n.y2)
  {
  }

  lemma RateIs(c: Coeffs)
    requires c.out2 != 1.0
    ensures Rate(c) == 1.0 - Kappa(c) / 2.0
  {
  }

  lemma HalfKappa(k: real, r: real, v: real, p: real, q: real)
    requires k > 0.0 && r == 1.0 - k / 2.0 && v <= 2.0 * (p + q)
    ensures v - k * p - k * q <= r * v
  {
    var h := 1.0 - r;
    MulNonNegative(h, 2.0 * (p + q) - v);
    assert h * (2.0 * (p + q) - v) == 2.0 * (h * p) + 2.0 * (h * q) - h * v;
    assert h * v == v - r * v && k * p == 2.0 * (h * p) && k * q == 2.0 * (h * q);
  }

  lemma RateBounds(c: Coeffs)
    requires Schur(c)
    ensures 0.0 <= Rate(c) < 1.0
  {
    var m, n := Memory(0.0, 0.0, 1.0, 0.0), Constant(0.0);
    KappaPositive(c);
    TwoStepsContract(c, m, n, 0.0, 0.0);
    EnergyNonNegative(c, Step(c, Step(c, m, 0.0), 0.0), Step(c, Step(c, n, 0.0), 0.0));
    assert Energy(c, m, n) == 1.0;
  }

  function Power(x: real, n: nat): real {
    if n == 0 then 1.0 else x * Power(x, n - 1)
  }

  lemma {:induction false} PowerBounds(x: real, n: nat)
    requires 0.0 <= x <= 1.0
    ensures Power(1.0 - x, n) >= 0.0
    ensures Power(1.0 - x, n) * (1.0 + n as real * x) <= 1.0
    decreases n
  {
    if n > 0 {
      PowerBounds(x, n - 1);
      var p, y := Power(1.0 - x, n - 1), (n - 1) as real * x;
      OneFactor(p, x, y, n - 1);
    }
  }

  lemma OneFactor(p: real, x: real, y: real, n: nat)
    requires p >= 0.0 && 0.0 <= x <= 1.0 && y == n as real * x && p * (1.0 + y) <= 1.0
    ensures (1.0 - x) * p >= 0.0 && (1.0 - x) * p * (1.0 + (n + 1) as real * x) <= 1.0
  {
    MulNonNegative(1.0 - x, p);
    MulNonNegative(x, x);
    MulNonNegative(x, y);
    var f := x * x + x * y;
    MulNonNegative(p, f);
    assert (n + 1) as real * x == y + x;
    assert (1.0 - x) * (1.0 + y + x) == 1.0 + y - f;
    assert (1.0 - x) * p * (1.0 + (y + x)) == p * ((1.0 - x) * (1.0 + y + x)) == p * (1.0 + y) - p * f;
  }

  lemma EnergyNeverGrows(c: Coeffs, m: Memory, n: Memory, us: seq<real>)
    requires Schur(c) && m.x1 == n.x1 && m.x2 == n.x2
    ensures Energy(c, Run(c, m, us), Run(c, n, us)) <= Energy(c, m, n)
  {
    Contraction(c, m, n, us);
    KappaPositive(c);
    SpreadNonNegative(c, m, n, us);
    hide Kappa, Energy, Spread, Run, Schur;
    MulNonNegative(Kappa(c), Spread(c, m, n, us));
  }

  lemma {:induction false} SpreadNonNegative(c: Coeffs, m: Memory, n: Memory, us: seq<real>)
    ensures Spread(c, m, n, us) >= 0.0
    decreases |us|
  {
    if us != [] {
      SquareNonNegative(m.y1 - n.y1);
      SpreadNonNegative(c, Step(c, m, us[0]), Step(c, n, us[0]), us[1..]);
    }
  }

  /** The energy between two such filters falls geometrically: every two further samples leave
      at most the factor Rate < 1 of it. */
  lemma {:induction false} Decay(c: Coeffs, m: Memory, n: Memory, us: seq<real>, k: nat)
    requires Schur(c) && m.x1 == n.x1 && m.x2 == n.x2 && 2 * k <= |us|
    ensures Energy(c, Run(c, m, us), Run(c, n, us)) <= Power(Rate(c), k) * Energy(c, m, n)
    decreases k
  {
    hide Energy, Rate, Output;
    if k == 0 {
      EnergyNeverGrows(c, m, n, us);
    } else {
      var m', n' := Step(c, m, us[0]), Step(c, n, us[0]);
      var m2, n2 := Step(c, m', us[1]), Step(c, n', us[1]);
      assert us[1..][0] == us[1] && us[1..][1..] == us[2..];
      TwoStepsContract(c, m, n, us[0], us[1]);
      Decay(c, m2, n2, us[2..], k - 1);
      PowerNonNegative(c, k - 1);
      Chain(Power(Rate(c), k - 1), Rate(c), Energy(c, m2, n2), Energy(c, m, n));
    }
  }

  lemma PowerNonNegative(c: Coeffs, k: nat)
    requires Schur(c)
    ensures Power(Rate(c), k) >= 0.0
  {
    RateBounds(c);
    PowerBounds(Kappa(c) / 2.0, k);
  }

  lemma Chain(p: real, r: real, v2: real, v: real)
    requires p >= 0.0 && v2 <= r * v
    ensures p * v2 <= r * p * v
  {
    MulNonNegative(p, r * v - v2);
    assert p * (r * v - v2) == r * p * v - p * v2;
  }

  // The output n samples after u has been held for two.
  function Held(wc: real, ts: real, m: Memory, u: real, n: nat): real {
    var c := CoeffsOf(wc, ts);
    Run(c, Step(c, Step(c, m, u), u), Hold(u, n)).y1
  }

  /** An explicit settling time: from any memory, once u has been the input for two samples and
      2k more have passed, where k * (kappa / 2) * Floor * eps^2 is at least the energy at that
      moment, every later output is within eps of u. */
  lemma SettlingTime(wc: real, ts: real, m: Memory, u: real, n: nat, eps: real, k: nat)
    requires wc * ts > 0.0 && eps > 0.0 && 2 * k <= n
    requires var c := CoeffsOf(wc, ts);
             c.out2 != 1.0 && k as real * (Kappa(c) / 2.0) * (Floor(c) * Sq(eps))
                              >= Energy(c, Step(c, Step(c, m, u), u), Constant(u))
    ensures -eps < Held(wc, ts, m, u, n) - u < eps
  {
    hide CoeffsOf, Kappa, V, Output, Sq, Floor, Power;
    SchurStable(wc, ts);
    var c := CoeffsOf(wc, ts);
    var held := Step(c, Step(c, m, u), u);
    var last := Run(c, held, Hold(u, n));
    ConstantStays(wc, ts, u, n);
    Decay(c, held, Constant(u), Hold(u, n), k);
    VAboveFloor(c, last.y1 - u, last.y2 - u);
    RateBounds(c);
    PowerBounds(Kappa(c) / 2.0, k);
    FloorPositive(c);
    SquareNonNegative(eps);
    MulPositive(Floor(c), Sq(eps));
    LittleLeft(Floor(c) * Sq(eps), Power(Rate(c), k), k as real * (Kappa(c) / 2.0), Energy(c, held, Constant(u)));
    if last.y1 - u >= eps || -(last.y1 - u) >= eps {
      SquareMonotone(last.y1 - u, eps);
      ScaleLess(Floor(c), Sq(eps), Sq(last.y1 - u));
    }
  }

  /** So every run converges: from some sample on the output is within any eps of u for good. */
  lemma Converges(wc: real, ts: real, m: Memory, u: real, eps: real) returns (k: nat)
    requires wc * ts > 0.0 && eps > 0.0
    ensures forall n: nat :: 2 * k <= n ==> -eps < Held(wc, ts, m, u, n) - u < eps
  {
    hide CoeffsOf, Kappa, Energy, Output, Sq, Floor, Run, Hold;
    SchurStable(wc, ts);
    var c := CoeffsOf(wc, ts);
    KappaPositive(c);
    FloorPositive(c);
    SquareNonNegative(eps);
    MulPositive(Floor(c), Sq(eps));
    MulPositive(Kappa(c) / 2.0, Floor(c) * Sq(eps));
    var start := Step(c, Step(c, m, u), u);
    EnergyNonNegative(c, start, Constant(u));
    k := Enough(Energy(c, start, Constant(u)), Kappa(c) / 2.0 * (Floor(c) * Sq(eps)));
    Regroup(k as real, Kappa(c) / 2.0, Floor(c) * Sq(eps));
    forall n: nat | 2 * k <= n
      ensures -eps < Held(wc, ts, m, u, n) - u < eps
    {
      SettlingTime(wc, ts, m, u, n, eps, k);
    }
  }

  lemma HoldRun(wc: real, ts: real, m: Memory, u: real, n: nat)
    requires n >= 2
    ensures Run(CoeffsOf(wc, ts), m, Hold(u, n)).y1 == Held(wc, ts, m, u, n - 2)
  {
    hide CoeffsOf, Step;
    assert Hold(u, n)[1..] == Hold(u, n - 1) && Hold(u, n - 1)[1..] == Hold(u, n - 2);
  }

  lemma Regroup(a: real, b: real, c: real)
    ensures a * (b * c) == a * b * c
  {
  }

  // A share p of at most y f is less than f, when p (1 + y) <= 1.
  lemma LittleLeft(f: real, p: real, y: real, e: real)
    requires f > 0.0 && p >= 0.0 && p * (1.0 + y) <= 1.0 && e <= y * f
    ensures p * e < f
  {
    MulNonNegative(p, y * f - e);
    MulNonNegative(1.0 - p * (1.0 + y), f);
    assert p * e <= p * (y * f);
    assert (1.0 - p * (1.0 + y)) * f == f - p * f - p * (y * f);
    if p > 0.0 {
      MulPositive(p, f);
    }
  }

  /** The first output after initialising to q lies strictly inside the way from q to u. */
  lemma BumplessStart(wc: real, ts: real, q: real, u: real)
    requires wc * ts > 0.0
    ensures var y := Output(CoeffsOf(wc, ts), Constant(q), u);
            && y == q + CoeffsOf(wc, ts).in1 * (u - q)
            && (q < u ==> q < y < u) && (u < q ==> u < y < q) && (q == u ==> y == q)
  {
    hide CoeffsOf;
    var c := CoeffsOf(wc, ts);
    SchurStable(wc, ts);
    UnitGain(wc, ts);
    FirstOutput(c, q, u);
    StrictlyInside(c.in1, q, u);
  }

  lemma FirstOutput(c: Coeffs, q: real, u: real)
    requires c.in1 + c.in2 + c.in3 + c.out1 + c.out2 == 1.0
    ensures Output(c, Constant(q), u) == q + c.in1 * (u - q)
  {
    assert Output(c, Constant(q), u) == c.in1 * u + (c.in2 + c.in3 + c.out1 + c.out2) * q;
  }

  lemma StrictlyInside(a: real, q: real, u: real)
    requires 0.0 < a < 1.0
    ensures var y := q + a * (u - q);
            (q < u ==> q < y < u) && (u < q ==> u < y < q) && (q == u ==> y == q)
  {
    if q < u {
      MulPositive(a, u - q);
      MulPositive(1.0 - a, u - q);
    } else if u < q {
      MulPositive(a, q - u);
      MulPositive(1.0 - a, q - u);
    }
  }
}
