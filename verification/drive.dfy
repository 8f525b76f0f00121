/** The per-sample drive loop of processBlock: a recursive envelope `a` that
    divides every oversampled sample, sanitised after each update so that it
    stays finite and inside `[Eps, Ceiling]`.

    Arithmetic is over exact reals. How double precision evaluates the update
    expression is a parameter `eval`, whose result may be non-finite; the
    sanitiser's guarantees hold whatever `eval` returns. */
module Drive {

  const Eps: real := 0.000000001
  const Ceiling: real := 1000000000.0
  /** Smoothing constant of the envelope update. */
  const K: real := 0.001

  /** A double as the sanitiser sees it: a finite value, or infinity/NaN. */
  datatype Num = Finite(value: real) | NonFinite

  /** The double-precision evaluation of the update for (envelope, sample, drive). */
  type Eval = (real, real, real) -> Num

  predicate InRange(a: real) {
    Eps <= a <= Ceiling
  }

  /** std::max(a, eps): the divisor, never below Eps. */
  function Divisor(a: real): (d: real)
    ensures d >= Eps && d > 0.0
    ensures d >= a
    ensures InRange(a) ==> d == a
  {
    if a < Eps then Eps else a
  }

  /** The sanitiser: a non-finite value becomes 1.0, a finite one is clamped
      to `[Eps, Ceiling]` by juce::jlimit. */
  function Sanitise(raw: Num): (a: real)
    ensures InRange(a)
    ensures a == 1.0 || (raw.Finite? && (a == Eps || a == Ceiling || a == raw.value))
    ensures raw.NonFinite? ==> a == 1.0
    ensures raw.Finite? && InRange(raw.value) ==> a == raw.value
    ensures raw.Finite? && raw.value < Eps ==> a == Eps
    ensures raw.Finite? && Ceiling < raw.value ==> a == Ceiling
  {
    match raw
    case NonFinite => 1.0
    case Finite(v) => if v < Eps then Eps else if Ceiling < v then Ceiling else v
  }

  /** Sanitising an already sanitised envelope changes nothing. */
  lemma SanitiseIdempotent(raw: Num)
    ensures Sanitise(Finite(Sanitise(raw))) == Sanitise(raw)
  {
  }

  /** The update over exact reals; `root` is the square root of `Divisor(a)`. */
  function ExactUpdate(a: real, x: real, drive: real, root: real): (r: real)
    requires root >= 0.0 && root * root == Divisor(a)
    ensures r >= (1.0 - K) * root
    ensures x * drive == 1.0 ==> r == (1.0 - K) * root
  {
    var e := 1.0 - x * drive;
    var mag := if e < 0.0 then -e else e;
    MulNonneg(mag, mag);
    (1.0 - K) * root + K * (mag * mag / Divisor(a))
  }

  /** Over exact reals the update never falls below Eps, so the lower clamp
      only ever acts on rounding error. */
  lemma ExactUpdateAboveFloor(a: real, x: real, drive: real, root: real)
    requires root >= 0.0 && root * root == Divisor(a)
    ensures ExactUpdate(a, x, drive, root) > Eps
  {
    var bound := 0.00001;
    if root <= bound {
      SquareMono(root, bound);
      assert false;
    }
    var e := 1.0 - x * drive;
    var mag := if e < 0.0 then -e else e;
    assert mag * mag >= 0.0;
    assert mag * mag / Divisor(a) >= 0.0;
    assert (1.0 - K) * root > (1.0 - K) * bound;
  }

  lemma MulNonneg(x: real, y: real)
    requires x >= 0.0 && y >= 0.0
    ensures x * y >= 0.0
  {
  }

  lemma MulMono(x: real, y: real, z: real)
    requires 0.0 <= x <= y && z >= 0.0
    ensures x * z <= y * z
  {
    MulNonneg(y - x, z);
    assert (y - x) * z == y * z - x * z;
  }

  lemma SquareMono(r: real, b: real)
    requires 0.0 <= r <= b
    ensures r * r <= b * b
  {
    MulMono(r, b, r);
    MulMono(r, b, b);
  }

  /** With the envelope at 1.0 a silent sample leaves it at 1.0. */
  lemma SilentUpdateIsOne(drive: real)
    ensures ExactUpdate(1.0, 0.0, drive, 1.0) == 1.0
  {
  }

  /** One sample: update and sanitise the envelope, then divide by it. */
  function Step(a: real, x: real, drive: real, eval: Eval): (r: (real, real))
    ensures InRange(r.0)
    ensures r.1 * Divisor(r.0) == x
    ensures r.1 * r.0 == x
  {
    var a' := Sanitise(eval(a, x, drive));
    (a', x / Divisor(a'))
  }

  /** Final envelope and the outputs of a run of samples. */
  datatype Trace = Trace(a: real, out: seq<real>)

  /** The loop, sample by sample from the front, as a reference definition. */
  function Run(a0: real, xs: seq<real>, drive: real, eval: Eval): (t: Trace)
    ensures |t.out| == |xs|
    ensures |xs| > 0 ==> InRange(t.a)
    ensures |xs| == 0 ==> t.a == a0
    decreases |xs|
  {
    if xs == [] then Trace(a0, [])
    else
      var t := Run(a0, xs[..|xs| - 1], drive, eval);
      var s := Step(t.a, xs[|xs| - 1], drive, eval);
      Trace(s.0, t.out + [s.1])
  }

  /** The envelope in force when sample `i` is divided. */
  function EnvelopeAt(a0: real, xs: seq<real>, drive: real, eval: Eval, i: nat): real
    requires i < |xs|
  {
    Run(a0, xs[..i + 1], drive, eval).a
  }

  /** Output `k` depends only on the first `k + 1` samples. */
  lemma {:induction false} RunPrefix(a0: real, xs: seq<real>, drive: real, eval: Eval, k: nat)
    requires k <= |xs|
    ensures Run(a0, xs[..k], drive, eval).out == Run(a0, xs, drive, eval).out[..k]
    decreases |xs|
  {
    if k < |xs| {
      var ys := xs[..|xs| - 1];
      RunPrefix(a0, ys, drive, eval, k);
      assert ys[..k] == xs[..k];
      assert Run(a0, xs, drive, eval).out[..k] == Run(a0, ys, drive, eval).out[..k];
    } else {
      assert xs[..k] == xs;
    }
  }

  /** Every output is its sample divided by an in-range envelope. */
  lemma {:induction false} RunPointwise(a0: real, xs: seq<real>, drive: real, eval: Eval)
    ensures forall i :: 0 <= i < |xs| ==>
      InRange(EnvelopeAt(a0, xs, drive, eval, i))
      && Run(a0, xs, drive, eval).out[i] * EnvelopeAt(a0, xs, drive, eval, i) == xs[i]
  {
    forall i | 0 <= i < |xs|
      ensures InRange(EnvelopeAt(a0, xs, drive, eval, i))
      ensures Run(a0, xs, drive, eval).out[i] * EnvelopeAt(a0, xs, drive, eval, i) == xs[i]
    {
      OutputAt(a0, xs, drive, eval, i);
    }
  }

  lemma {:induction false} OutputAt(a0: real, xs: seq<real>, drive: real, eval: Eval, i: nat)
    requires i < |xs|
    ensures InRange(EnvelopeAt(a0, xs, drive, eval, i))
    ensures Run(a0, xs, drive, eval).out[i] * EnvelopeAt(a0, xs, drive, eval, i) == xs[i]
  {
    var ys := xs[..i + 1];
    RunPrefix(a0, xs, drive, eval, i + 1);
    assert ys[..i] == xs[..i];
    assert ys[i] == xs[i];
    var t := Run(a0, ys[..i], drive, eval);
    var s := Step(t.a, ys[i], drive, eval);
    assert Run(a0, ys, drive, eval) == Trace(s.0, t.out + [s.1]);
    assert Run(a0, ys, drive, eval).out[i] == s.1;
  }

  function Zeros(n: nat): (z: seq<real>)
    ensures |z| == n
  {
    seq(n, _ => 0.0)
  }

  /** A silent block comes out silent, from any envelope and whatever the
      double-precision evaluation of the update does. */
  lemma SilentBlockOutputsSilence(a0: real, n: nat, drive: real, eval: Eval)
    ensures Run(a0, Zeros(n), drive, eval).out == Zeros(n)
  {
    var out := Run(a0, Zeros(n), drive, eval).out;
    RunPointwise(a0, Zeros(n), drive, eval);
    forall i | 0 <= i < n
      ensures out[i] == 0.0
    {
      var e := EnvelopeAt(a0, Zeros(n), drive, eval, i);
      assert out[i] * e == 0.0 && e > 0.0;
    }
  }

  /** Silence is a fixed point: when the update is exact at the silent point,
      a silent block starting from 1.0 leaves the envelope at 1.0 and stays silent. */
  lemma {:induction false} SilenceStaysSilent(n: nat, drive: real, eval: Eval)
    requires eval(1.0, 0.0, drive) == Finite(ExactUpdate(1.0, 0.0, drive, 1.0))
    ensures Run(1.0, Zeros(n), drive, eval) == Trace(1.0, Zeros(n))
  {
    SilentUpdateIsOne(drive);
    if n > 0 {
      assert Zeros(n)[..n - 1] == Zeros(n - 1);
      SilenceStaysSilent(n - 1, drive, eval);
      assert Zeros(n - 1) + [0.0] == Zeros(n);
    }
  }

  /** The in-place loop over the oversampled block: each index visited once,
      in order, its sample replaced by the sample divided by the new envelope. */
  method DriveBlock(d: seq<real>, a0: real, drive: real, eval: Eval) returns (buf: seq<real>, a: real)
    ensures |buf| == |d|
    ensures Trace(a, buf) == Run(a0, d, drive, eval)
    ensures |d| > 0 || InRange(a0) ==> InRange(a)
    ensures |d| == 0 ==> a == a0 && buf == d
  {
    buf := d;
    a := a0;
    var i := 0;
    while i < |d|
      invariant 0 <= i <= |d|
      invariant |buf| == |d|
      invariant buf[i..] == d[i..]
      invariant Trace(a, buf[..i]) == Run(a0, d[..i], drive, eval)
    {
      var x := buf[i];
      assert x == d[i] by {
        assert buf[i..][0] == d[i..][0];
      }
      a := Sanitise(eval(a, x, drive));
      buf := buf[i := x / Divisor(a)];
      assert d[..i + 1][..i] == d[..i];
      assert buf[..i + 1] == buf[..i] + [x / Divisor(a)];
      i := i + 1;
    }
    assert buf[..i] == buf && d[..i] == d;
  }
}
