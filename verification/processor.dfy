/** SimpleDriveAudioProcessor's control state: the menu-to-factor mapping,
    prepareToPlay, the factor-change detection at the start of processBlock
    and one whole block through the pipeline.

    The process-wide `static int lastFactor` is a field of the processor here.
    Two members come in an as-written and a corrected form (see README's
    Findings): `PrepareToPlayAsWritten` / `PrepareToPlay` and
    `BeginBlockAsWritten` / `BeginBlock`. */
module Processor {
  import opened Oversampler
  import opened Drive

  /** The "Oversampling" choice: Off, 2x, 3x, 6x, 12x, by index. */
  function OversampleFactor(mode: int): (f: int)
    ensures Supported(f)
    ensures mode < 1 || 4 < mode ==> f == 1
    ensures 0 <= mode <= 4 ==> ModeIndex(f) == mode
  {
    match mode
    case 1 => 2
    case 2 => 3
    case 3 => 6
    case 4 => 12
    case _ => 1
  }

  /** Position of a supported factor in the menu. */
  function ModeIndex(f: int): int {
    if f == 2 then 1 else if f == 3 then 2 else if f == 6 then 3 else if f == 12 then 4 else 0
  }

  /** The menu reaches every supported factor, and `prepare`'s clamp leaves
      every menu factor as it is and builds stages that realise it exactly. */
  lemma MenuFactorsAreExact(mode: int, f: int, prev: Config, rate: real, maxBlock: nat)
    ensures Supported(f) ==> OversampleFactor(ModeIndex(f)) == f
    ensures Clamp(1, 12, OversampleFactor(mode)) == OversampleFactor(mode)
    ensures Prepare(prev, rate, maxBlock, OversampleFactor(mode)).factor == OversampleFactor(mode)
    ensures FlagProduct(Prepare(prev, rate, maxBlock, OversampleFactor(mode)).plan) == OversampleFactor(mode)
  {
    var g := OversampleFactor(mode);
    PlanMatchesFactor(g);
  }

  /** The processor: envelope, last factor seen by processBlock, host sample
      rate, and the oversampler. */
  datatype Processor = Processor(a: real, lastFactor: int, sampleRate: real, conv: Converter)

  const Initial := Processor(1.0, 1, 0.0, Converter(Unprepared, {}))

  /** The state the corrected processor keeps: a well-formed oversampler
      running at the last factor processBlock saw, and an in-range envelope. */
  predicate Valid(p: Processor) {
    && WellFormed(p.conv.cfg)
    && p.conv.cfg.factor == p.lastFactor
    && InRange(p.a)
  }

  lemma InitialIsValid()
    ensures Valid(Initial)
  {
  }

  /** prepareToPlay as written: envelope back to 1.0, oversampler prepared
      and reset at the menu factor; lastFactor is left alone. */
  function PrepareToPlayAsWritten(p: Processor, sampleRate: real, samplesPerBlock: nat, mode: int): (q: Processor)
    ensures q.a == 1.0
    ensures q.lastFactor == p.lastFactor
    ensures q.sampleRate == sampleRate
    ensures q.conv.cfg.factor == OversampleFactor(mode) && q.conv.cfg.maxBlock == samplesPerBlock
    ensures WellFormed(q.conv.cfg) && q.conv.history == {}
  {
    var f := OversampleFactor(mode);
    Processor(1.0, p.lastFactor, sampleRate, Reset(PrepareConverter(p.conv, sampleRate, samplesPerBlock, f)))
  }

  /** prepareToPlay corrected: it also records the factor it prepared for. */
  function PrepareToPlay(p: Processor, sampleRate: real, samplesPerBlock: nat, mode: int): (q: Processor)
    ensures Valid(q)
    ensures q.a == 1.0 && q.lastFactor == OversampleFactor(mode)
    ensures q.conv.cfg.maxBlock == samplesPerBlock && q.conv.history == {}
  {
    PrepareToPlayAsWritten(p, sampleRate, samplesPerBlock, mode).(lastFactor := OversampleFactor(mode))
  }

  /** Start of processBlock as written: re-prepare and reset only when the menu
      factor differs from lastFactor, sized for the current block. */
  function BeginBlockAsWritten(p: Processor, mode: int, n: nat): (q: Processor)
    ensures WellFormed(p.conv.cfg) ==> WellFormed(q.conv.cfg)
    ensures q.lastFactor == OversampleFactor(mode)
    ensures q.a == p.a && q.sampleRate == p.sampleRate
    ensures p.lastFactor == OversampleFactor(mode) ==> q == p
    ensures p.lastFactor != OversampleFactor(mode) ==>
      q.conv.cfg.factor == OversampleFactor(mode) && q.conv.cfg.maxBlock == n
      && q.conv.cfg.baseFs == p.sampleRate && q.conv.history == {}
  {
    var wanted := OversampleFactor(mode);
    if wanted != p.lastFactor then
      p.(conv := Reset(PrepareConverter(p.conv, p.sampleRate, n, wanted)), lastFactor := wanted)
    else p
  }

  /** Start of processBlock corrected: a re-prepare never shrinks the block
      capacity below what was prepared before. */
  function BeginBlock(p: Processor, mode: int, n: nat): (q: Processor)
    requires WellFormed(p.conv.cfg)
    ensures WellFormed(q.conv.cfg)
    ensures q.lastFactor == OversampleFactor(mode)
    ensures q.a == p.a && q.sampleRate == p.sampleRate
    ensures p.lastFactor == OversampleFactor(mode) ==> q == p
    ensures p.lastFactor != OversampleFactor(mode) ==>
      q.conv.cfg.factor == OversampleFactor(mode) && q.conv.cfg.maxBlock >= n
      && q.conv.cfg.baseFs == p.sampleRate && q.conv.history == {}
    ensures q.conv.cfg.maxBlock >= p.conv.cfg.maxBlock
    ensures Valid(p) ==> Valid(q) && q.conv.cfg.factor == OversampleFactor(mode)
  {
    var wanted := OversampleFactor(mode);
    var size := if n < p.conv.cfg.maxBlock then p.conv.cfg.maxBlock else n;
    if wanted != p.lastFactor then
      p.(conv := Reset(PrepareConverter(p.conv, p.sampleRate, size, wanted)), lastFactor := wanted)
    else p
  }

  /** A second block at the same menu factor reconfigures nothing. */
  lemma SameFactorNoReconfiguration(p: Processor, mode: int, n: nat, n2: nat)
    requires WellFormed(p.conv.cfg)
    ensures BeginBlockAsWritten(BeginBlockAsWritten(p, mode, n), mode, n2) == BeginBlockAsWritten(p, mode, n)
    ensures BeginBlock(BeginBlock(p, mode, n), mode, n2) == BeginBlock(p, mode, n)
  {
  }

  /** Everything after the factor-change detection: upsample, drive every
      oversampled sample, downsample. The values the enabled stages emit are
      `stageOut`; when no stage is enabled (factor 1, and also 4, 5 and 7 to
      11) `processUp` hands back the block itself and the drive runs on it. */
  method RunPipeline(b: Processor, block: seq<real>, drive: real, eval: Eval, stageOut: nat -> real)
    returns (q: Processor, driven: seq<real>, delivery: Delivery)
    requires WellFormed(b.conv.cfg)
    ensures q == b.(a := q.a, conv := RunBlock(b.conv, |block|))
    ensures |driven| == |block| * FlagProduct(b.conv.cfg.plan)
    ensures delivery == if b.conv.cfg.plan.use3 then Delivered(|block|) else Unchecked(|block|)
    ensures b.conv.cfg.plan == NoStages ==> Trace(q.a, driven) == Run(b.a, block, drive, eval)
    ensures |block| > 0 || InRange(b.a) ==> InRange(q.a)
  {
    var n := |block|;
    var cfg := b.conv.cfg;
    var m := ProcessUp(cfg, n);
    var osBlock := if cfg.plan == NoStages then block else seq(m, i requires 0 <= i < m => stageOut(i));
    var a;
    driven, a := DriveBlock(osBlock, b.a, drive, eval);
    delivery := ProcessDown(cfg, n, |driven|);
    RoundTrip(cfg, n);
    q := b.(a := a, conv := RunBlock(b.conv, n));
  }

  /** One whole block through the processor as written. The oversampler runs
      at whatever factor it was last prepared for, which is the menu factor
      only when a factor change was just detected; `delivery` says whether
      the result reached the base block. */
  method ProcessBlockAsWritten(p: Processor, mode: int, block: seq<real>, drive: real, eval: Eval, stageOut: nat -> real)
    returns (q: Processor, driven: seq<real>, delivery: Delivery)
    requires WellFormed(p.conv.cfg) && InRange(p.a)
    ensures WellFormed(q.conv.cfg) && InRange(q.a)
    ensures q.lastFactor == OversampleFactor(mode) && q.sampleRate == p.sampleRate
    ensures p.lastFactor == OversampleFactor(mode) ==> q.conv.cfg == p.conv.cfg
    ensures p.lastFactor != OversampleFactor(mode) ==>
      q.conv.cfg.factor == OversampleFactor(mode) && q.conv.cfg.maxBlock == |block|
    ensures |driven| == |block| * FlagProduct(q.conv.cfg.plan)
    ensures delivery == if q.conv.cfg.plan.use3 then Delivered(|block|) else Unchecked(|block|)
    ensures q.conv.cfg.plan == NoStages ==> Trace(q.a, driven) == Run(p.a, block, drive, eval)
    ensures p.lastFactor != OversampleFactor(mode) || |block| <= p.conv.cfg.maxBlock ==> Fits(q.conv.cfg, |block|)
  {
    var b := BeginBlockAsWritten(p, mode, |block|);
    q, driven, delivery := RunPipeline(b, block, drive, eval, stageOut);
    if p.lastFactor != OversampleFactor(mode) || |block| <= p.conv.cfg.maxBlock {
      CapacityHolds(b.conv.cfg, |block|);
    }
  }

  /** One whole block through the corrected processor: from a valid state the
      oversampler runs at the menu factor and every block within the prepared
      size fits. */
  method ProcessBlock(p: Processor, mode: int, block: seq<real>, drive: real, eval: Eval, stageOut: nat -> real)
    returns (q: Processor, driven: seq<real>, delivery: Delivery)
    requires Valid(p)
    ensures Valid(q)
    ensures q.lastFactor == OversampleFactor(mode) && q.conv.cfg.factor == OversampleFactor(mode)
    ensures |driven| == |block| * OversampleFactor(mode)
    ensures delivery == if q.conv.cfg.plan.use3 then Delivered(|block|) else Unchecked(|block|)
    ensures OversampleFactor(mode) == 1 ==> Trace(q.a, driven) == Run(p.a, block, drive, eval)
    ensures |block| <= p.conv.cfg.maxBlock ==> Fits(q.conv.cfg, |block|)
  {
    var b := BeginBlock(p, mode, |block|);
    PlanMatchesFactor(b.conv.cfg.factor);
    q, driven, delivery := RunPipeline(b, block, drive, eval, stageOut);
    if |block| <= p.conv.cfg.maxBlock {
      CapacityHolds(b.conv.cfg, |block|);
    }
  }

  // ---------------------------------------------------------------------------
  // Runs of host calls

  datatype Event = HostPrepare(sampleRate: real, samplesPerBlock: nat, mode: int) | HostBlock(mode: int, length: nat)

  datatype Variant = AsWritten | Corrected

  /** The control effect of one host call (block contents do not matter to it). */
  function Apply(v: Variant, p: Processor, e: Event): Processor
    requires v == Corrected ==> WellFormed(p.conv.cfg)
  {
    match e
    case HostPrepare(rate, spb, mode) =>
      if v == AsWritten then PrepareToPlayAsWritten(p, rate, spb, mode) else PrepareToPlay(p, rate, spb, mode)
    case HostBlock(mode, n) =>
      if v == AsWritten then BeginBlockAsWritten(p, mode, n) else BeginBlock(p, mode, n)
  }

  /** The host's side of the contract: no block is longer than the size the
      latest prepareToPlay announced (`cap` before the first one). */
  predicate HostKeepsBlockSize(evs: seq<Event>, cap: nat) {
    if evs == [] then true
    else match evs[0]
      case HostPrepare(_, spb, _) => HostKeepsBlockSize(evs[1..], spb)
      case HostBlock(_, n) => n <= cap && HostKeepsBlockSize(evs[1..], cap)
  }

  /** Every block of the run fits the oversampler configured for it, and runs
      at the factor the menu asks for. */
  predicate BlocksServed(v: Variant, p: Processor, evs: seq<Event>)
    requires WellFormed(p.conv.cfg)
    decreases |evs|
  {
    if evs == [] then true
    else
      var q := Apply(v, p, evs[0]);
      && WellFormed(q.conv.cfg)
      && (evs[0].HostBlock? ==> Fits(q.conv.cfg, evs[0].length) && q.conv.cfg.factor == OversampleFactor(evs[0].mode))
      && BlocksServed(v, q, evs[1..])
  }

  lemma ApplyKeepsWellFormed(v: Variant, p: Processor, e: Event)
    requires WellFormed(p.conv.cfg)
    ensures WellFormed(Apply(v, p, e).conv.cfg)
  {
  }

  /** The corrected processor serves every block of a run in which the host
      keeps to its announced block size. */
  lemma {:induction false} CorrectedRunServesBlocks(p: Processor, evs: seq<Event>, cap: nat)
    requires Valid(p) && cap <= p.conv.cfg.maxBlock
    requires HostKeepsBlockSize(evs, cap)
    ensures BlocksServed(Corrected, p, evs)
    decreases |evs|
  {
    if evs != [] {
      var q := Apply(Corrected, p, evs[0]);
      match evs[0]
      case HostPrepare(rate, spb, mode) =>
        CorrectedRunServesBlocks(q, evs[1..], spb);
      case HostBlock(mode, n) =>
        CapacityHolds(q.conv.cfg, n);
        CorrectedRunServesBlocks(q, evs[1..], cap);
    }
  }

  /** As written, a prepareToPlay at 3x followed by a block with the menu at
      Off runs that block at 3x: lastFactor still says 1. */
  lemma StaleFactorAsWritten()
    ensures !BlocksServed(AsWritten, Initial, [HostPrepare(44100.0, 512, 2), HostBlock(0, 512)])
  {
    var p1 := Apply(AsWritten, Initial, HostPrepare(44100.0, 512, 2));
    assert p1.conv.cfg.factor == 3 && p1.lastFactor == 1;
    var p2 := Apply(AsWritten, p1, HostBlock(0, 512));
    assert p2.conv.cfg.factor == 3;
  }

  /** As written, switching to 2x on a 64-sample block sizes the oversampler
      for 64 samples, and the next full 512-sample block overflows the 2x
      stage, although the host keeps to its announced 512. */
  lemma ShrunkCapacityAsWritten()
    ensures HostKeepsBlockSize([HostPrepare(44100.0, 512, 0), HostBlock(1, 64), HostBlock(1, 512)], 0)
    ensures !BlocksServed(AsWritten, Initial, [HostPrepare(44100.0, 512, 0), HostBlock(1, 64), HostBlock(1, 512)])
  {
    var p1 := Apply(AsWritten, Initial, HostPrepare(44100.0, 512, 0));
    var p2 := Apply(AsWritten, p1, HostBlock(1, 64));
    assert p2.conv.cfg.maxBlock == 64 && p2.conv.cfg.factor == 2;
    var p3 := Apply(AsWritten, p2, HostBlock(1, 512));
    assert p3 == p2;
    var c := p3.conv.cfg;
    StagesComposeToFlagProduct(c);
    assert UpSteps(c, 512)[0] == Step(Os2Up, 512, 1024);
    assert !StepFits(c, Step(Os2Up, 512, 1024));
    assert Step(Os2Up, 512, 1024) in UpSteps(c, 512) + DownSteps(c, ProcessUp(c, 512));
  }
}
