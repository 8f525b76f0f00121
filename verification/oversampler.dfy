/** The VariableOversampler helper: which stages a factor enables, the buffer
    and stage capacities fixed by `prepare`, and the block lengths that flow
    through `processUp` and `processDown`.

    The sample values produced by the half-band stages, the low-pass filter
    and the Lagrange interpolators are not modelled: every stage is a box that
    turns a block of one length into a block of another length. */
module Oversampler {

  datatype Option<T> = None | Some(value: T)

  /** Factors whose enabled stages multiply to exactly that factor. */
  predicate Supported(f: int) {
    f == 1 || f == 2 || f == 3 || f == 6 || f == 12
  }

  /** juce::jlimit: `x` pulled into `[lo, hi]`. */
  function Clamp(lo: int, hi: int, x: int): (r: int)
    requires lo <= hi
    ensures lo <= r <= hi
    ensures lo <= x <= hi ==> r == x
    ensures x < lo ==> r == lo
    ensures hi < x ==> r == hi
  {
    if x < lo then lo else if hi < x then hi else x
  }

  // ---------------------------------------------------------------------------
  // Stage plan

  /** The three stage-enable flags: Lagrange 3x, one-stage half-band 2x, two-stage half-band 4x. */
  datatype Plan = Plan(use3: bool, use2: bool, use4: bool)

  const NoStages := Plan(false, false, false)

  /** The flags `prepare` derives from an already clamped factor. */
  function PlanFor(factor: int): (p: Plan)
    ensures factor == 1 ==> p == NoStages
    ensures p.use4 ==> p.use3 && !p.use2
    ensures p.use2 || p.use3 || p.use4 <==> factor in {2, 3, 6, 12}
  {
    if factor == 1 then NoStages
    else Plan(factor == 3 || factor == 6 || factor == 12, factor == 2 || factor == 6, factor == 12)
  }

  /** The ratio the enabled stages multiply a block length by. */
  function FlagProduct(p: Plan): nat {
    (if p.use3 then 3 else 1) * (if p.use2 then 2 else 1) * (if p.use4 then 4 else 1)
  }

  /** The plan realises its factor exactly when the factor is one of 1, 2, 3, 6, 12;
      every other clamped factor enables no stage at all. */
  lemma PlanMatchesFactor(f: int)
    requires 1 <= f <= 12
    ensures FlagProduct(PlanFor(f)) == f <==> Supported(f)
    ensures !Supported(f) ==> PlanFor(f) == NoStages && FlagProduct(PlanFor(f)) == 1
    ensures f == 1 ==> PlanFor(f) == NoStages
  {
  }

  /** Only five flag combinations ever occur, each flag is on for exactly its
      factors, and distinct supported factors get distinct plans. */
  lemma PlanCombinations(f: int, g: int)
    requires 1 <= f <= 12 && 1 <= g <= 12
    ensures PlanFor(f).use3 <==> f == 3 || f == 6 || f == 12
    ensures PlanFor(f).use2 <==> f == 2 || f == 6
    ensures PlanFor(f).use4 <==> f == 12
    ensures PlanFor(f) in {NoStages, Plan(true, false, false), Plan(false, true, false),
                           Plan(true, true, false), Plan(true, false, true)}
    ensures Supported(f) && Supported(g) && PlanFor(f) == PlanFor(g) ==> f == g
  {
    PlanMatchesFactor(f);
    PlanMatchesFactor(g);
  }

  // ---------------------------------------------------------------------------
  // Stage objects and the prepared configuration

  function Pow2(k: nat): nat {
    if k == 0 then 1 else 2 * Pow2(k - 1)
  }

  /** A juce::dsp::Oversampling object: `stages` cascaded 2x half-band stages,
      initialised for blocks of up to `capacity` input samples. */
  datatype HalfBand = HalfBand(stages: nat, capacity: nat) {
    function Ratio(): nat {
      Pow2(stages)
    }
  }

  lemma HalfBandRatios(capacity: nat)
    ensures HalfBand(1, capacity).Ratio() == 2
    ensures HalfBand(2, capacity).Ratio() == 4
  {
    assert Pow2(2) == 2 * Pow2(1);
  }

  /** The anti-alias low-pass run before the 3x decimation, designed at
      `multiplier` times the base rate with its cutoff at 0.45 of the base Nyquist.
      It always filters the 3x interpolator's output (see `LowPassRunRate`). */
  datatype LowPass = LowPass(baseFs: real, multiplier: int) {
    function DesignRate(): real {
      baseFs * multiplier as real
    }
    function Cutoff(): real {
      0.45 * (baseFs * 0.5)
    }
  }

  /** The multiple of the base rate the low-pass is designed at. */
  function LpMultiplier(p: Plan): (k: int)
    ensures k >= 2
    ensures p.use3 && !(p.use2 && p.use4) ==> k == FlagProduct(p)
  {
    if p.use4 then 12 else if p.use2 then 6 else if p.use3 then 3 else 2
  }

  /** Whenever the 3x path runs, its low-pass is designed at the full oversampled
      rate, which is not the rate it runs at beyond 3x (see `LowPassRunRate`). */
  lemma LowPassRateIsFactor(f: int)
    requires 1 <= f <= 12
    ensures PlanFor(f).use3 ==> LpMultiplier(PlanFor(f)) == f && FlagProduct(PlanFor(f)) == f
  {
  }

  /** The persistent part of a VariableOversampler. `scratch` is the sample
      capacity of each of the two scratch buffers. */
  datatype Config = Config(
    factor: int,
    baseFs: real,
    maxBlock: nat,
    plan: Plan,
    scratch: nat,
    os2: Option<HalfBand>,
    os4: Option<HalfBand>,
    lowPass: Option<LowPass>)

  /** A freshly constructed helper, before any `prepare`. */
  const Unprepared := Config(1, 44100.0, 0, NoStages, 0, None, None, None)

  /** The shape every configuration `prepare` produces has. */
  predicate WellFormed(c: Config) {
    && 1 <= c.factor <= 12
    && c.plan == PlanFor(c.factor)
    && c.scratch == c.maxBlock * 12
    && (c.plan.use2 <==> c.os2.Some?)
    && (c.os2.Some? ==> c.os2.value == HalfBand(1, c.maxBlock * 6))
    && (c.plan.use4 <==> c.os4.Some?)
    && (c.os4.Some? ==> c.os4.value == HalfBand(2, c.maxBlock * 12))
  }

  /** The product of the ratios of the stage objects that actually run. */
  function StageRatio(c: Config): nat
    requires WellFormed(c)
  {
    (if c.plan.use3 then 3 else 1)
    * (if c.plan.use2 then c.os2.value.Ratio() else 1)
    * (if c.plan.use4 then c.os4.value.Ratio() else 1)
  }

  /** The low-pass design of `prepare`: skipped for factor 1, which returns
      before it, and otherwise at the multiplier's rate with cutoff 0.45 of Nyquist. */
  function DesignLowPass(prev: Option<LowPass>, baseSampleRate: real, f: int): (lp: Option<LowPass>)
    requires 1 <= f <= 12
    ensures f == 1 ==> lp == prev
    ensures f != 1 ==> lp.Some? && lp.value.baseFs == baseSampleRate
    ensures PlanFor(f).use3 ==> lp == Some(LowPass(baseSampleRate, f))
  {
    LowPassRateIsFactor(f);
    if f == 1 then prev
    else Some(LowPass(baseSampleRate, LpMultiplier(PlanFor(f))))
  }

  /** `prepare`: clamp the factor, derive the flags, size the scratch buffers
      and build only the stages the flags ask for. `prev` supplies the low-pass
      coefficients, which a factor-1 prepare leaves as they were. */
  function Prepare(prev: Config, baseSampleRate: real, maxBlockSize: nat, factorWanted: int): (c: Config)
    ensures WellFormed(c)
    ensures 1 <= c.factor <= 12
    ensures 1 <= factorWanted <= 12 ==> c.factor == factorWanted
    ensures factorWanted < 1 ==> c.factor == 1
    ensures factorWanted > 12 ==> c.factor == 12
    ensures c.baseFs == baseSampleRate && c.maxBlock == maxBlockSize
    ensures c.scratch == maxBlockSize * 12
    ensures c.factor == 1 ==> c.plan == NoStages && c.os2 == None && c.os4 == None && c.lowPass == prev.lowPass
    ensures StageRatio(c) == c.factor <==> Supported(c.factor)
    ensures c.plan.use3 ==> c.lowPass == Some(LowPass(baseSampleRate, c.factor))
  {
    var f := Clamp(1, 12, factorWanted);
    var plan := PlanFor(f);
    HalfBandRatios(maxBlockSize * 6);
    HalfBandRatios(maxBlockSize * 12);
    PlanMatchesFactor(f);
    Config(
      f, baseSampleRate, maxBlockSize, plan, maxBlockSize * 12,
      if plan.use2 then Some(HalfBand(1, maxBlockSize * 6)) else None,
      if plan.use4 then Some(HalfBand(2, maxBlockSize * 12)) else None,
      DesignLowPass(prev.lowPass, baseSampleRate, f))
  }

  /** The os2 stage is a 2x stage, the os4 stage a 4x stage, so the stages that
      run multiply lengths by the flag product. */
  lemma StagesComposeToFlagProduct(c: Config)
    requires WellFormed(c)
    ensures c.os2.Some? ==> c.os2.value.Ratio() == 2
    ensures c.os4.Some? ==> c.os4.value.Ratio() == 4
    ensures StageRatio(c) == FlagProduct(c.plan)
  {
    HalfBandRatios(c.maxBlock * 6);
    HalfBandRatios(c.maxBlock * 12);
  }

  // ---------------------------------------------------------------------------
  // Block-length flow

  /** The processing steps, in rank order: the up chain, then the down chain. */
  datatype StageId = LagUp | Os2Up | Os4Up | Os4Down | Os2Down | PreDownFilter | LagDown

  function Rank(s: StageId): nat {
    match s
    case LagUp => 0
    case Os2Up => 1
    case Os4Up => 2
    case Os4Down => 3
    case Os2Down => 4
    case PreDownFilter => 5
    case LagDown => 6
  }

  /** One stage run: its input and output block lengths. */
  datatype Step = Step(stage: StageId, input: nat, output: nat)

  /** The steps run strictly in rank order. */
  predicate InOrder(steps: seq<Step>) {
    forall i, j :: 0 <= i < j < |steps| ==> Rank(steps[i].stage) < Rank(steps[j].stage)
  }

  /** Each step consumes the block the previous one produced, starting from `n`. */
  predicate Chained(n: nat, steps: seq<Step>) {
    && (|steps| > 0 ==> steps[0].input == n)
    && forall i :: 0 <= i < |steps| - 1 ==> steps[i].output == steps[i + 1].input
  }

  /** The length that comes out of a chain of steps entered with `n` samples. */
  function Final(n: nat, steps: seq<Step>): nat {
    if steps == [] then n else steps[|steps| - 1].output
  }

  /** `processUp`: the stages that run, 3x interpolation first, then 2x, then 4x. */
  function UpSteps(c: Config, n: nat): (steps: seq<Step>)
    requires WellFormed(c)
    ensures c.factor == 1 ==> steps == []
    ensures |steps| <= 2
    ensures forall i :: 0 <= i < |steps| ==> steps[i].input <= steps[i].output
  {
    StagesComposeToFlagProduct(c);
    if c.factor == 1 then []
    else
      var n3 := if c.plan.use3 then n * 3 else n;
      var n2 := if c.plan.use2 then n3 * c.os2.value.Ratio() else n3;
      var n4 := if c.plan.use4 then n2 * c.os4.value.Ratio() else n2;
      (if c.plan.use3 then [Step(LagUp, n, n3)] else [])
      + (if c.plan.use2 then [Step(Os2Up, n3, n2)] else [])
      + (if c.plan.use4 then [Step(Os4Up, n2, n4)] else [])
  }

  /** Length of the block `processUp` returns for an `n`-sample input. */
  function ProcessUp(c: Config, n: nat): (m: nat)
    requires WellFormed(c)
    ensures c.factor == 1 ==> m == n
    ensures m == n * FlagProduct(c.plan)
    ensures Supported(c.factor) ==> m == n * c.factor
    ensures !Supported(c.factor) ==> m == n
  {
    StagesComposeToFlagProduct(c);
    PlanMatchesFactor(c.factor);
    Final(n, UpSteps(c, n))
  }

  /** The up chain is chained, ordered 3x -> 2x -> 4x, and each stage multiplies
      its input length by its own ratio. */
  lemma UpChainShape(c: Config, n: nat)
    requires WellFormed(c)
    ensures Chained(n, UpSteps(c, n)) && InOrder(UpSteps(c, n))
    ensures forall s :: s in UpSteps(c, n) && s.stage == LagUp ==> s.output == s.input * 3
    ensures forall s :: s in UpSteps(c, n) && s.stage == Os2Up ==> s.output == s.input * 2
    ensures forall s :: s in UpSteps(c, n) && s.stage == Os4Up ==> s.output == s.input * 4
    ensures forall s :: s in UpSteps(c, n) ==> Rank(s.stage) <= 2
  {
    StagesComposeToFlagProduct(c);
  }

  /** `processDown`: undo 4x, then 2x, then low-pass and undo 3x, with integer division. */
  function DownSteps(c: Config, m: nat): (steps: seq<Step>)
    requires WellFormed(c)
    ensures c.factor == 1 ==> steps == []
    ensures |steps| <= 3
    ensures forall i :: 0 <= i < |steps| ==> steps[i].output <= steps[i].input
  {
    StagesComposeToFlagProduct(c);
    var n4 := if c.plan.use4 then m / c.os4.value.Ratio() else m;
    var n2 := if c.plan.use2 then n4 / c.os2.value.Ratio() else n4;
    var n3 := if c.plan.use3 then n2 / 3 else n2;
    (if c.plan.use4 then [Step(Os4Down, m, n4)] else [])
    + (if c.plan.use2 then [Step(Os2Down, n4, n2)] else [])
    + (if c.plan.use3 then [Step(PreDownFilter, n2, n2), Step(LagDown, n2, n3)] else [])
  }

  /** What `processDown` does with the base block: the 3x path copies its result
      in after asserting the length; the other paths never reach the assertion. */
  datatype Delivery = Delivered(length: nat) | Unchecked(length: nat) | LengthMismatch(expected: nat, actual: nat)

  function ProcessDown(c: Config, base: nat, m: nat): (d: Delivery)
    requires WellFormed(c)
    ensures c.plan.use3 <==> !d.Unchecked?
    ensures d.Delivered? ==> d.length == base
  {
    var out := Final(m, DownSteps(c, m));
    if !c.plan.use3 then Unchecked(out)
    else if out == base then Delivered(out)
    else LengthMismatch(base, out)
  }

  /** The down chain mirrors the up chain: chained, ordered 4x -> 2x -> filter -> 3x. */
  lemma DownChainShape(c: Config, m: nat)
    requires WellFormed(c)
    ensures Chained(m, DownSteps(c, m)) && InOrder(DownSteps(c, m))
    ensures forall s :: s in DownSteps(c, m) ==> 3 <= Rank(s.stage)
    ensures forall s :: s in DownSteps(c, m) && s.stage == Os4Down ==> s.output == s.input / 4
    ensures forall s :: s in DownSteps(c, m) && s.stage == Os2Down ==> s.output == s.input / 2
    ensures forall s :: s in DownSteps(c, m) && s.stage == LagDown ==> s.output == s.input / 3
    ensures forall s :: s in DownSteps(c, m) && s.stage == PreDownFilter ==> s.output == s.input
  {
    StagesComposeToFlagProduct(c);
    PlanCombinations(c.factor, c.factor);
    assert DownSteps(c, m) == DownList(m, c.plan);
    DownListShape(m, c.plan);
  }

  /** The down chain with the stage ratios written out. */
  function DownList(m: nat, p: Plan): seq<Step> {
    var n4 := if p.use4 then m / 4 else m;
    var n2 := if p.use2 then n4 / 2 else n4;
    var n3 := if p.use3 then n2 / 3 else n2;
    (if p.use4 then [Step(Os4Down, m, n4)] else [])
    + (if p.use2 then [Step(Os2Down, n4, n2)] else [])
    + (if p.use3 then [Step(PreDownFilter, n2, n2), Step(LagDown, n2, n3)] else [])
  }

  lemma DownListShape(m: nat, p: Plan)
    ensures Chained(m, DownList(m, p)) && InOrder(DownList(m, p))
    ensures forall s :: s in DownList(m, p) ==> 3 <= Rank(s.stage)
    ensures forall s :: s in DownList(m, p) && s.stage == Os4Down ==> s.output == s.input / 4
    ensures forall s :: s in DownList(m, p) && s.stage == Os2Down ==> s.output == s.input / 2
    ensures forall s :: s in DownList(m, p) && s.stage == LagDown ==> s.output == s.input / 3
    ensures forall s :: s in DownList(m, p) && s.stage == PreDownFilter ==> s.output == s.input
  {
  }

  /** Chained integer divisions by the down ratios are one division by their product. */
  lemma DownLengthIsQuotient(c: Config, m: nat)
    requires WellFormed(c)
    ensures Final(m, DownSteps(c, m)) == m / FlagProduct(c.plan)
  {
    StagesComposeToFlagProduct(c);
    var p := c.plan;
    if p.use4 && p.use3 {
      assert p == Plan(true, false, true);
      DivDiv(m, 4, 3);
    } else if p.use2 && p.use3 {
      assert p == Plan(true, true, false);
      DivDiv(m, 2, 3);
    }
  }

  lemma DivDiv(m: nat, a: nat, b: nat)
    requires a > 0 && b > 0
    ensures m / a / b == m / (a * b)
  {
    var q1 := m / a;
    var q := q1 / b;
    var r1 := m % a;
    var r2 := q1 % b;
    assert m == q1 * a + r1;
    assert q1 == q * b + r2;
    assert q1 * a == q * (a * b) + r2 * a by {
      assert (q * b + r2) * a == q * b * a + r2 * a;
      assert q * b * a == q * (a * b);
    }
    assert 0 <= r2 * a + r1 < a * b by {
      MulLe(r2, b - 1, a);
      assert (b - 1) * a == a * b - a;
    }
    DivUnique(m, a * b, q, r2 * a + r1);
  }

  lemma DivUnique(m: nat, d: nat, q: int, r: int)
    requires d > 0 && m == q * d + r && 0 <= r < d
    ensures m / d == q
  {
    var q0 := m / d;
    var r0 := m % d;
    assert m == q0 * d + r0 && 0 <= r0 < d;
    if q0 < q {
      MulLe(q0 + 1, q, d);
      assert false;
    } else if q < q0 {
      MulLe(q + 1, q0, d);
      assert false;
    }
  }

  lemma MulLe(a: int, b: int, d: nat)
    requires a <= b
    ensures a * d <= b * d
  {
    assert b * d - a * d == (b - a) * d;
  }

  /** Up then down gives back exactly the base length; on the 3x path the
      assertion in `processDown` therefore passes. */
  lemma RoundTrip(c: Config, n: nat)
    requires WellFormed(c)
    ensures Final(n, DownSteps(c, ProcessUp(c, n))) == n
    ensures ProcessDown(c, n, ProcessUp(c, n)) == if c.plan.use3 then Delivered(n) else Unchecked(n)
  {
    var k := FlagProduct(c.plan);
    DownLengthIsQuotient(c, ProcessUp(c, n));
    DivUnique(n * k, k, n, 0);
  }

  /** On the 3x path the length assertion passes exactly when the oversampled
      block holds between `base * factor` and `base * factor + factor - 1` samples. */
  lemma DeliveredIff(c: Config, base: nat, m: nat)
    requires WellFormed(c) && c.plan.use3
    ensures ProcessDown(c, base, m).Delivered? <==> base * c.factor <= m < base * c.factor + c.factor
  {
    var k := FlagProduct(c.plan);
    PlanMatchesFactor(c.factor);
    assert k == c.factor;
    DownLengthIsQuotient(c, m);
    if base * k <= m < base * k + k {
      DivUnique(m, k, base, m - base * k);
    } else {
      var q := m / k;
      assert m == q * k + m % k;
      if q == base {
        assert false;
      }
    }
  }

  /** The low-pass before the 3x decimation always filters the 3N samples the
      3x interpolator produced, a stream at three times the base rate, because
      the 4x and 2x stages are undone first. `prepare` designs it at the factor
      times the base rate, so design rate and run rate agree only at 3x. */
  lemma LowPassRunRate(prev: Config, baseSampleRate: real, maxBlockSize: nat, factorWanted: int, n: nat)
    ensures var c := Prepare(prev, baseSampleRate, maxBlockSize, factorWanted);
      forall s :: s in DownSteps(c, ProcessUp(c, n)) && s.stage == PreDownFilter ==> s.input == 3 * n
    ensures var c := Prepare(prev, baseSampleRate, maxBlockSize, factorWanted);
      c.plan.use3 ==>
        && c.lowPass.Some? && c.lowPass.value.multiplier == c.factor
        && (c.lowPass.value.multiplier == 3 <==> c.factor == 3)
  {
    var c := Prepare(prev, baseSampleRate, maxBlockSize, factorWanted);
    StagesComposeToFlagProduct(c);
    PlanCombinations(c.factor, c.factor);
    var m := ProcessUp(c, n);
    var p := c.plan;
    if p == Plan(true, true, false) {
      assert m == n * 6;
      assert DownSteps(c, m)[1] == Step(PreDownFilter, m / 2, m / 2);
    } else if p == Plan(true, false, true) {
      assert m == n * 12;
      assert DownSteps(c, m)[1] == Step(PreDownFilter, m / 4, m / 4);
    }
  }

  const MaxInt32: int := 0x7FFF_FFFF

  /** Block lengths and capacities are 32-bit `int`s in the helper; none of them
      exceeds the range while twelve times the maximum block size stays in it
      and the block is within the prepared size. */
  lemma LengthsFitInt32(c: Config, n: nat)
    requires WellFormed(c) && c.maxBlock * 12 <= MaxInt32 && n <= c.maxBlock
    ensures c.scratch <= MaxInt32 && c.maxBlock * 6 <= MaxInt32
    ensures forall s :: s in UpSteps(c, n) ==> s.input <= MaxInt32 && s.output <= MaxInt32
    ensures forall s :: s in DownSteps(c, ProcessUp(c, n)) ==> s.input <= MaxInt32 && s.output <= MaxInt32
  {
    StagesComposeToFlagProduct(c);
    PlanCombinations(c.factor, c.factor);
    UpChainShape(c, n);
    DownChainShape(c, ProcessUp(c, n));
    var m := ProcessUp(c, n);
    assert m <= n * 12 by {
      MulLe(FlagProduct(c.plan), 12, n);
    }
    MulLe(n, c.maxBlock, 12);
    forall s | s in UpSteps(c, n)
      ensures s.output <= m
    {
      var p := c.plan;
      if p == Plan(true, true, false) || p == Plan(true, false, true) {
        assert s == UpSteps(c, n)[0] || s == UpSteps(c, n)[1];
      }
    }
    DownFitsWithin(c, m);
  }

  lemma DownFitsWithin(c: Config, m: nat)
    requires WellFormed(c)
    ensures forall s :: s in DownSteps(c, m) ==> s.input <= m && s.output <= m
  {
    StagesComposeToFlagProduct(c);
    PlanCombinations(c.factor, c.factor);
  }

  // ---------------------------------------------------------------------------
  // Capacities

  /** The step stays within the buffer or stage object it runs in. */
  predicate StepFits(c: Config, s: Step) {
    match s.stage
    case LagUp => s.output <= c.scratch
    case Os2Up => c.os2.Some? && s.input <= c.os2.value.capacity
    case Os4Up => c.os4.Some? && s.input <= c.os4.value.capacity
    case Os4Down => c.os4.Some? && s.output <= c.scratch
    case Os2Down => c.os2.Some? && s.output <= c.scratch
    case PreDownFilter => s.output == s.input
    case LagDown => s.output <= c.scratch
  }

  /** Every step of an up-down round trip of an `n`-sample block fits. */
  predicate Fits(c: Config, n: nat)
    requires WellFormed(c)
  {
    forall s :: s in UpSteps(c, n) + DownSteps(c, ProcessUp(c, n)) ==> StepFits(c, s)
  }

  /** Blocks no longer than the prepared maximum fit every buffer and stage. */
  lemma CapacityHolds(c: Config, n: nat)
    requires WellFormed(c) && n <= c.maxBlock
    ensures Fits(c, n)
  {
    var m := ProcessUp(c, n);
    UpFits(c, n);
    MulLe(n, c.maxBlock, 12);
    assert m <= c.scratch by {
      PlanMatchesFactor(c.factor);
      MulLe(FlagProduct(c.plan), 12, n);
    }
    DownFits(c, m);
  }

  lemma UpFits(c: Config, n: nat)
    requires WellFormed(c) && n <= c.maxBlock
    ensures forall s :: s in UpSteps(c, n) ==> StepFits(c, s)
  {
    StagesComposeToFlagProduct(c);
    UpChainShape(c, n);
    if c.factor != 1 {
      PlanMatchesFactor(c.factor);
      MulLe(n, c.maxBlock, 3);
    }
  }

  lemma DownFits(c: Config, m: nat)
    requires WellFormed(c) && m <= c.scratch
    ensures forall s :: s in DownSteps(c, m) ==> StepFits(c, s)
  {
    StagesComposeToFlagProduct(c);
    DownChainShape(c, m);
  }

  /** Speed ratios handed to the two Lagrange interpolators. */
  const UpSpeed: real := 1.0 / 3.0
  const DownSpeed: real := 3.0

  /** The interpolators read `speed * outputLength` input samples: the up one
      reads its whole input, the down one never more than it has, and all of
      it when its input length is a multiple of 3. */
  lemma InterpolatorsStayInInput(c: Config, n: nat, m: nat)
    requires WellFormed(c)
    ensures forall s :: s in DownSteps(c, m) && s.stage == LagDown && s.input % 3 == 0 ==>
      DownSpeed * s.output as real == s.input as real
    ensures forall s :: s in UpSteps(c, n) && s.stage == LagUp ==> UpSpeed * s.output as real == s.input as real
    ensures forall s :: s in DownSteps(c, m) && s.stage == LagDown ==> DownSpeed * s.output as real <= s.input as real
  {
    UpChainShape(c, n);
    DownChainShape(c, m);
    forall s | s in DownSteps(c, m) && s.stage == LagDown
      ensures DownSpeed * s.output as real <= s.input as real
      ensures s.input % 3 == 0 ==> DownSpeed * s.output as real == s.input as real
    {
      assert s.output * 3 <= s.input;
      if s.input % 3 == 0 {
        assert s.output * 3 == s.input;
      }
    }
  }

  // ---------------------------------------------------------------------------
  // The helper with its filter memory

  /** The stateful objects that keep history between blocks; os2 and os4 each
      serve both directions. */
  datatype StageMemory = LagUpState | LagDownState | PreDownState | Os2State | Os4State

  function Owner(s: StageId): StageMemory {
    match s
    case LagUp => LagUpState
    case LagDown => LagDownState
    case PreDownFilter => PreDownState
    case Os2Up => Os2State
    case Os2Down => Os2State
    case Os4Up => Os4State
    case Os4Down => Os4State
  }

  /** A VariableOversampler: its configuration and the units holding history. */
  datatype Converter = Converter(cfg: Config, history: set<StageMemory>)

  /** `prepare` on the whole helper: every unit starts without history. */
  function PrepareConverter(cv: Converter, baseSampleRate: real, maxBlockSize: nat, factorWanted: int): (r: Converter)
    ensures r.history == {}
    ensures r.cfg == Prepare(cv.cfg, baseSampleRate, maxBlockSize, factorWanted)
  {
    Converter(Prepare(cv.cfg, baseSampleRate, maxBlockSize, factorWanted), {})
  }

  /** `reset`: clear every unit's history and nothing else. */
  function Reset(cv: Converter): (r: Converter)
    ensures r.history == {}
    ensures r.cfg.factor == cv.cfg.factor && r.cfg.plan == cv.cfg.plan
    ensures r.cfg.maxBlock == cv.cfg.maxBlock && r.cfg.baseFs == cv.cfg.baseFs
    ensures r.cfg == cv.cfg
  {
    Converter(cv.cfg, {})
  }

  /** Resetting twice is resetting once, a reset right after `prepare` changes
      nothing, and a reset after any block returns the helper to its state
      right after `prepare`. */
  lemma ResetIdempotent(cv: Converter, baseSampleRate: real, maxBlockSize: nat, factorWanted: int, n: nat)
    ensures Reset(Reset(cv)) == Reset(cv)
    ensures Reset(PrepareConverter(cv, baseSampleRate, maxBlockSize, factorWanted))
      == PrepareConverter(cv, baseSampleRate, maxBlockSize, factorWanted)
    ensures Reset(RunBlock(PrepareConverter(cv, baseSampleRate, maxBlockSize, factorWanted), n))
      == PrepareConverter(cv, baseSampleRate, maxBlockSize, factorWanted)
  {
  }

  function Owners(steps: seq<Step>): set<StageMemory> {
    set s | s in steps :: Owner(s.stage)
  }

  /** One block through the helper: the units touched gain history. */
  function RunBlock(cv: Converter, n: nat): (r: Converter)
    requires WellFormed(cv.cfg)
    ensures r.cfg == cv.cfg
    ensures cv.history <= r.history
    ensures cv.cfg.factor == 1 ==> r.history == cv.history
  {
    var steps := UpSteps(cv.cfg, n) + DownSteps(cv.cfg, ProcessUp(cv.cfg, n));
    Converter(cv.cfg, cv.history + Owners(steps))
  }
}
