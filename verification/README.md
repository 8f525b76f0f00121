# SimpleDrive oversampling and drive pipeline: a Dafny model

SimpleDrive is a mono JUCE plugin. It runs a feedback "drive" nonlinearity at an oversampled rate, which the user picks from a menu (Off, 2x, 3x, 6x, 12x). This project models the integer bookkeeping and guard logic around that pipeline:

- **`Oversampler`** (`oversampler.dfy`) models the `VariableOversampler` helper:
  - `prepare` clamps the factor and derives the `use3`/`use2`/`use4` stage flags from it;
  - it fixes the scratch-buffer and stage capacities and builds only the stages those flags enable;
  - `os2` is one 2x half-band stage and `os4` is two cascaded 2x stages, so a 4x stage;
  - it picks the rate the 3x path's low-pass is designed at;
  - `reset` clears filter memory;
  - `processUp` multiplies block lengths in the order 3x → 2x → 4x;
  - `processDown` divides them in the order /4 → /2 → /3 and asserts the final length on the 3x path.

  Every stage is a box that changes the block length. The sample values it produces are not modelled.
- **`Drive`** (`drive.dfy`) models the per-sample envelope loop of `processBlock`:
  - the envelope `a` is updated, then sanitised: a non-finite value becomes 1.0, and a finite one is clamped to `[1e-9, 1e9]`;
  - each sample is then divided by `max(a, 1e-9)`.

  The arithmetic is over exact reals. How double precision evaluates the update is a parameter `eval`, whose result is `Finite(v)` or `NonFinite`. The update over exact reals is `ExactUpdate`. It takes the square root of `max(a, 1e-9)` as an argument, because Dafny has no real square root.
- **`Processor`** (`processor.dfy`) models the `SimpleDriveAudioProcessor` control state:
  - the menu index → factor mapping;
  - `prepareToPlay`;
  - the factor-change detection against `lastFactor` at the start of `processBlock`;
  - one whole block: reconfigure, upsample, drive, downsample.

  The source keeps `lastFactor` in a function-local `static`. Here it is a field of the processor.

The model follows the code on these points, which one might expect to be otherwise:
- The 12x plan is {`use3`, `use4`} with `use2` false, so 3·4 = 12. It is not {`use2`, `use3`, `use4`}, and no composition yields 24x.
- A clamped factor of 4, 5, 7, 8, 9, 10 or 11 enables no stage at all, so its ratio is 1. It is not mapped to the nearest supported factor.
- The envelope `a` is reset only by `prepareToPlay`. The oversampler's `reset` does not touch it.
- `processBlock` reconfigures only when the factor changes, not when the block size or sample rate changes.
- The low-pass before the 3x decimation is designed at factor·baseFs (PluginProcessor.h:43-45). It always filters the 3x interpolator's output, a stream at 3·baseFs, because the 4x and 2x stages are undone first (lines 94-112). Design rate and run rate therefore agree only at 3x. At 6x and 12x the effective cutoff is 3/factor of the intended 0.45·baseFs/2.
- When no stage is enabled (factor 1, and also the unsupported factors 4, 5 and 7 to 11), `processUp` hands back the base block itself, and the drive runs on it in place.

## Model

| member | source | states |
|---|---|---|
| `Oversampler.Clamp` | PluginProcessor.h:10 | jlimit keeps the factor inside [1, 12], leaves in-range values alone, and sends values below to 1 and above to 12 |
| `Oversampler.PlanFor` | PluginProcessor.h:24-32 | factor 1 enables no stage; use4 comes only with use3 and never with use2, so 12x runs 3x then 4x; some stage is enabled exactly for the factors 2, 3, 6 and 12 |
| `Oversampler.PlanMatchesFactor` | PluginProcessor.h:24-32 | the flag product equals the clamped factor exactly when the factor is 1, 2, 3, 6 or 12; every other factor (4, 5, ...) enables no stage and has product 1; factor 1 enables nothing |
| `Oversampler.PlanCombinations` | PluginProcessor.h:24-32 | use3 holds iff the factor is 3, 6 or 12, use2 iff it is 2 or 6, and use4 iff it is 12; only five flag combinations occur, and two different supported factors never share a plan |
| `Oversampler.HalfBandRatios` | PluginProcessor.h:34-40 | an Oversampling object with one 2x stage is 2x, and one with two cascaded stages is 4x |
| `Oversampler.LowPassRateIsFactor` | PluginProcessor.h:42-45 | whenever the 3x path is enabled, the low-pass design-rate multiplier (12 if use4, 6 if use2, otherwise 3) equals the factor, which is the full oversampled rate, not the rate the filter runs at |
| `Oversampler.LpMultiplier` | PluginProcessor.h:43 | the multiplier of the low-pass design rate is at least 2, and whenever the 3x path runs it equals the ratio of the enabled stages |
| `Oversampler.DesignLowPass` | PluginProcessor.h:42-46 | factor 1 leaves the previous coefficients in place, because prepare returns before the design; any other factor designs at the base rate with cutoff 0.45·baseFs/2; on the 3x path the design-rate multiplier is the factor |
| `Oversampler.Prepare` | PluginProcessor.h:8-50 | the result is well formed with factor = clamp(wanted, 1, 12); it records the rate and max block; scratch capacity is 12·maxBlock; factor 1 builds no stage and keeps the old low-pass; the built stages multiply to the factor iff the factor is supported; on the 3x path the low-pass is designed at baseFs·factor |
| `Oversampler.StagesComposeToFlagProduct` | PluginProcessor.h:30-40 | os2 is a 2x stage, os4 a 4x stage, and the stage objects that run multiply to (use3?3:1)·(use2?2:1)·(use4?4:1) |
| `Oversampler.UpSteps` | PluginProcessor.h:69-84 | factor 1 runs no up stage; at most two up stages run for any prepared factor; no up stage shortens its block |
| `Oversampler.ProcessUp` | PluginProcessor.h:61-87 | factor 1 returns the input length; otherwise the output length is N times the flag product; that is N·factor for supported factors and N for the others |
| `Oversampler.UpChainShape` | PluginProcessor.h:69-84 | the up chain starts at N; each stage takes the previous stage's output; stages run in the order 3x, 2x, 4x, multiplying by 3, 2 and 4 |
| `Oversampler.DownSteps` | PluginProcessor.h:94-119 | factor 1 runs no down stage; at most three down steps run (the 3x path counts its low-pass and its interpolator); no down step lengthens its block |
| `Oversampler.ProcessDown` | PluginProcessor.h:89-126 | the length assertion is reached exactly on the 3x path, and a delivered block has the base block's length |
| `Oversampler.DownChainShape` | PluginProcessor.h:94-119 | the down chain mirrors the up chain: /4, then /2, then the in-place low-pass, then /3, chained and in that order |
| `Oversampler.DownLengthIsQuotient` | PluginProcessor.h:94-116 | the chained integer divisions give the oversampled length divided by the flag product |
| `Oversampler.RoundTrip` | PluginProcessor.h:66-120 | up then down returns exactly the base length N for every prepared factor, so the assertion at line 120 holds on the 3x path |
| `Oversampler.DeliveredIff` | PluginProcessor.h:115-120 | on the 3x path the length assertion passes iff the oversampled block has between N·factor and N·factor + factor − 1 samples |
| `Oversampler.LowPassRunRate` | PluginProcessor.h:94-112 | the pre-decimation low-pass always filters 3N samples, the 3x interpolator's output; on the 3x path it is designed at factor·baseFs (line 43), so its design rate equals its run rate exactly at 3x |
| `Oversampler.LengthsFitInt32` | PluginProcessor.h:20-84 | while 12·maxBlock fits a 32-bit int and the block is within maxBlock, the scratch size (line 20), the os2 capacity (line 48) and every up and down block length, such as 3N at line 72, fit a 32-bit int too |
| `Oversampler.CapacityHolds` | PluginProcessor.h:20-49 | when N ≤ maxBlock, every up and down step of a round trip fits its scratch buffer or stage capacity |
| `Oversampler.UpFits` | PluginProcessor.h:69-84 | when N ≤ maxBlock, the 3x output (≤ 3N) fits the 12·maxBlock scratch buffer, the os2 input fits maxBlock·6, and the os4 input fits maxBlock·12 |
| `Oversampler.DownFits` | PluginProcessor.h:94-119 | when the oversampled length fits the scratch buffer, every down step's output fits it too |
| `Oversampler.InterpolatorsStayInInput` | PluginProcessor.h:69-119 | with speed ratios 1/3 and 3, the up interpolator reads exactly its N input samples; the down one never reads more than it is given, and reads all of it when the length is a multiple of 3 |
| `Oversampler.PrepareConverter` | PluginProcessor.h:14-18 | prepare clears the history of every filter and interpolator |
| `Oversampler.Reset` | PluginProcessor.h:52-59 | reset clears all stage history and leaves factor, flags, maxBlock, baseFs and the rest of the configuration unchanged |
| `Oversampler.ResetIdempotent` | PluginProcessor.h:52-59 | resetting twice equals resetting once; for every rate, maximum block size and factor, a reset right after prepare changes nothing, and a reset after any block returns the helper to its state right after prepare |
| `Oversampler.RunBlock` | PluginProcessor.h:61-126 | a block leaves the configuration unchanged and only adds history; at factor 1 no stage runs |
| `Drive.Divisor` | PluginProcessor.cpp:86 | max(a, eps) is at least 1e-9 > 0 and at least a, and equals a when a is in range, so the division is always defined |
| `Drive.Sanitise` | PluginProcessor.cpp:83-84 | the envelope after sanitising is in [1e-9, 1e9]; it is 1.0 for a non-finite update, the clamped bound for an out-of-range one, and the value itself otherwise |
| `Drive.SanitiseIdempotent` | PluginProcessor.cpp:83-84 | sanitising an already sanitised envelope changes nothing |
| `Drive.ExactUpdate` | PluginProcessor.cpp:79-81 | over exact reals the update is at least 0.999·√max(a, eps), because its second term is a square divided by a positive number; it is exactly that when the sample times the drive is 1 |
| `Drive.ExactUpdateAboveFloor` | PluginProcessor.cpp:79-81 | over exact reals the update is always above 1e-9, so only rounding can trigger the lower clamp |
| `Drive.SilentUpdateIsOne` | PluginProcessor.cpp:79-81 | over exact reals, a = 1 with a zero sample gives 0.999·1 + 0.001·1/1 = 1 |
| `Drive.Step` | PluginProcessor.cpp:78-86 | after one sample the envelope is in range, and the output times the divisor gives back the input sample |
| `Drive.Run` | PluginProcessor.cpp:76-87 | the reference loop emits one output per sample; after a non-empty block the envelope is in range; an empty block leaves it as it was |
| `Drive.RunPrefix` | PluginProcessor.cpp:76-87 | samples are processed in order: the first k outputs depend only on the first k samples |
| `Drive.OutputAt` | PluginProcessor.cpp:76-87 | output i times the envelope in force at sample i equals sample i, and that envelope is in range |
| `Drive.RunPointwise` | PluginProcessor.cpp:76-87 | every output is its sample divided by an in-range envelope |
| `Drive.SilentBlockOutputsSilence` | PluginProcessor.cpp:76-87 | a silent block comes out silent, from any envelope and whatever the double-precision evaluation of the update returns |
| `Drive.SilenceStaysSilent` | PluginProcessor.cpp:76-87 | if the update is exact at the silent point, a silent block starting from a = 1 keeps a = 1 and outputs silence |
| `Drive.DriveBlock` | PluginProcessor.cpp:73-87 | the in-place loop visits each index once, in order; it yields exactly the reference outputs and final envelope; it keeps the envelope in range; it leaves an empty block and the envelope untouched |
| `Processor.OversampleFactor` | PluginProcessor.cpp:24-35 | every mode maps to a supported factor; modes outside 1..4 map to 1; modes 0..4 map to distinct factors, recovered by their menu position |
| `Processor.MenuFactorsAreExact` | PluginProcessor.cpp:24-35 | every supported factor is reachable from the menu; prepare's clamp is the identity on menu factors; the stages built for a menu factor multiply to it |
| `Processor.InitialIsValid` | PluginProcessor.h:130-133 | the freshly constructed processor satisfies the processor invariant: the helper at factor 1 with no stages (lines 130-133), the envelope a = 1.0 (PluginProcessor.h:175) and lastFactor = 1 (PluginProcessor.cpp:58) |
| `Processor.PrepareToPlayAsWritten` | PluginProcessor.cpp:37-42 | prepareToPlay sets a = 1.0 and prepares and resets the oversampler at the menu factor with the host block size; lastFactor is not touched |
| `Processor.PrepareToPlay` | PluginProcessor.cpp:37-42 | the corrected prepareToPlay also records the prepared factor as lastFactor, so the processor invariant holds afterwards |
| `Processor.BeginBlockAsWritten` | PluginProcessor.cpp:58-65 | re-prepare and reset happen iff the menu factor differs from lastFactor; they use the current block length as maxBlock; afterwards lastFactor equals the menu factor; otherwise nothing changes |
| `Processor.BeginBlock` | PluginProcessor.cpp:58-65 | the corrected detection re-prepares on the same condition without lowering maxBlock; from a valid state it runs the oversampler at the menu factor |
| `Processor.SameFactorNoReconfiguration` | PluginProcessor.cpp:58-65 | a second block at the same menu factor reconfigures nothing |
| `Processor.RunPipeline` | PluginProcessor.cpp:67-89 | after the factor check the block is upsampled, driven and downsampled: the drive sees N times the stage ratio samples; processDown delivers N samples only on the 3x path; when no stage is enabled the drive runs in place on the block itself, exactly as the reference loop; only the envelope and the oversampler's history change |
| `Processor.ProcessBlockAsWritten` | PluginProcessor.cpp:52-90 | one block as written: the envelope stays in range and lastFactor becomes the menu factor; the oversampler is reconfigured for the menu factor and the block length only on a factor change, and is otherwise untouched, so it may run at a stale factor; the oversampled block has N times the stage ratio; processDown copies N samples back into the base block only on the 3x path (PluginProcessor.h:120-121); on the 2x path nothing is copied back; when no stage is enabled the drive runs in place on the base block itself; the block fits the buffers after a reconfiguration or when it is within the prepared size |
| `Processor.ProcessBlock` | PluginProcessor.cpp:58-65 | one block of the corrected processor, which uses `PrepareToPlay` and `BeginBlock` in place of the code at PluginProcessor.cpp:37-42 and line 62: it keeps the invariant and runs the oversampler at the menu factor; the oversampled block has N·factor samples; processDown delivers N samples into the base block only on the 3x path and copies nothing back on the 2x path; at factor 1 the drive runs in place on the base block itself; a block within the prepared size fits every buffer |
| `Processor.ApplyKeepsWellFormed` | PluginProcessor.cpp:37-65 | every host call leaves the oversampler configuration well formed |
| `Processor.CorrectedRunServesBlocks` | PluginProcessor.cpp:58-65 | with the corrected members, every block fits its buffers and runs at the menu factor, provided the host never exceeds the block size it announced |
| `Processor.StaleFactorAsWritten` | PluginProcessor.cpp:37-65 | as written, prepareToPlay at 3x followed by a block with the menu at Off runs that block at 3x |
| `Processor.ShrunkCapacityAsWritten` | PluginProcessor.cpp:58-65 | as written, a switch to 2x on a 64-sample block leaves a later 512-sample block overflowing the 2x stage, although the host keeps to its announced 512 |

## Findings

| source | as written | input that shows it | evidently intended | confidence | as-written member | corrected member |
|---|---|---|---|---|---|---|
| PluginProcessor.cpp:37-42 | `prepareToPlay` prepares the oversampler at the menu factor but never updates `lastFactor`, which `processBlock` compares against | fresh processor (lastFactor 1); prepareToPlay with the menu at 3x; the first block arrives with the menu at Off: 1 == lastFactor, so no re-prepare happens and the block runs at 3x | after prepareToPlay, `lastFactor` equals the factor the oversampler was prepared for | medium, not executed | `Processor.StaleFactorAsWritten` (on `Processor.PrepareToPlayAsWritten`) | `Processor.PrepareToPlay`, proved in `Processor.CorrectedRunServesBlocks` |
| PluginProcessor.cpp:62 | a factor change re-prepares with `buffer.getNumSamples()` as the maximum block size | prepareToPlay(44100, 512) with the menu Off; a 64-sample block with the menu at 2x re-prepares for 64 samples (os2 capacity 384); the next 512-sample block exceeds it | a re-prepare keeps at least the capacity the host's announced block size needs | medium, not executed | `Processor.ShrunkCapacityAsWritten` (on `Processor.BeginBlockAsWritten`) | `Processor.BeginBlock`, proved in `Processor.CorrectedRunServesBlocks` |

## Left out

- Sample values: the output of `juce::dsp::Oversampling`, `IIR::Filter`/`makeLowPass` and `LagrangeInterpolator` are foreign library code, so each stage is modelled only by the lengths it takes and returns. `ProcessBlockAsWritten` and `ProcessBlock` take the oversampled values as the parameter `stageOut`.
- Where the 2x/4x down paths leave their output (the `temp2` sub-blocks at PluginProcessor.h:96-103) depends on JUCE semantics that are not visible here. The model tracks only the lengths. It also does not track `temp2`'s logical size after `setSize` at line 117.
- IEEE double/float behaviour is abstracted: NaN and infinity inside `pow`/`sqrt`, denormals (`ScopedNoDenormals`), and the float casts of the slider and the output sample. The evaluation of the update is the parameter `eval`; the square root is an argument of `ExactUpdate`.
- Drive.SilenceStaysSilent: assumes `eval` is exact at the silent point; rounding of `0.999 + 0.001` in double precision is not modelled.
- Block sizes, `maxBlock` and `samplesPerBlock` are `nat`: a negative `int` block size is not modelled.
- Oversampler.Prepare: the source computes `maxBlock * 12` (PluginProcessor.h:20), `maxBlock * 6` (line 48) and the block lengths, such as `inN * 3` (line 72), in 32-bit `int`. The model's integers are unbounded. Its capacities, and `Oversampler.CapacityHolds`, describe the source only while 12·maxBlock ≤ 2^31 − 1, i.e. maxBlock ≤ 178,956,970. `Oversampler.LengthsFitInt32` proves nothing overflows within that bound. Signed overflow beyond it is not modelled.
- The menu mode is read from a float parameter and cast to `int`; the model takes the `int`.
- The `static lastFactor` is shared by every plugin instance in the process. The model gives each processor its own field, so the interference between instances is not modelled.
- Host plumbing: state persistence (`getStateInformation`/`setStateInformation`), bus-layout negotiation, parameter registration in the constructor, `releaseResources` (empty), and the editor (PluginEditor.cpp, PluginEditor.h). None of these touches the pipeline's bookkeeping.
- Audible, time-constant and aliasing-quality properties are filter-response claims and cannot be stated over lengths and exact reals.
