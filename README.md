# Stereo Output Controller: channel-routing core

This project models the signal-processing core of the Stereo Output Controller
audio plugin and proves properties of it in Dafny. Each processing call gets a
block of two-channel frames from the host. The call picks one output mode and
rewrites the block in place with that mode's transform. The modes are: sum to
mono, difference to mono, silence one side, duplicate one side, one-sided
balance attenuation, and a crossfeed that is still a stub.

Files:

- `wrappers.dfy`: module `Wrappers`, with `Option` and `Result`.
- `stereo.dfy`: module `Stereo`. It holds the `Frame` value `(l, r)` and the
  `Transform` datatype, one constructor per transform in `src/proc.rs`. Eight
  of its nine functions are transforms; the ninth, `scale`, is the helper
  that `balance` calls.
  `ApplyFrame` gives each transform's effect on one frame. `ApplyBlock` extends
  it to a whole block, front to back. The lemmas about both are here.
- `proc.dfy`: module `Proc`, the functions of `src/proc.rs` as methods over
  `array<Frame>`. The six routing transforms and `Balance` are `for` loops
  whose invariant separates the frames already done from the ones not yet
  touched. `Crossfeed` has no loop, because its body is empty. These eight
  methods are proved to leave the array equal to `ApplyBlock` of its old
  contents. They also state the new value of every frame directly. `Scale`
  rewrites one sample of one frame, and `BalanceAsCompiled` changes nothing;
  both state their effect directly.
- `plugin.dfy`: module `Plugin`. It holds the `OutputMode` enumeration, the
  parameter and crossfeed defaults, the channel check in `initialize`, and the
  dispatcher `Process` with its specification `Output`.

Samples are `real`. Channel count two is built into `Frame`. That is the only
layout the plugin declares, and `initialize` refuses any main input that does
not have exactly two channels, so the `unwrap()` on channel index 0 or 1 can
never fail in the model.

Four points are fixed by the code, not by what the modes and parameters are
meant to become, and the model follows the code:

- The sign of the balance amount. A positive amount scales the LEFT channel
  (index 0) by `1 - bal`. A negative amount is negated and scales the RIGHT
  channel (index 1). A positive amount therefore favours the right, not the
  left.
- Clamping. The code never clamps the balance amount or the crossfeed
  settings. The range `[-0.25, 0.25]` is only declared to the host, which
  keeps the balance value inside it.
- Crossfeed. `crossfeed` has an empty body and no delay line is allocated.
  The model treats crossfeed as the identity and has no delay line. The
  delay-and-mix the comments describe is not implemented.
- Enable toggle. The code has none, so none is modelled: every mode is
  always active.

The crate as given does not build. The call to `crossfeed` in
`src/lib.rs:183-188` passes three arguments, but `src/proc.rs:56` declares
four. `src/proc.rs:56` also names a `DelayBuffer` type that `src/proc.rs`
never imports. Wherever this model speaks of the code "as written" or "as
compiled", it means what that text would do once those two errors are
repaired the way the call site implies: by dropping the fourth parameter.

The two crossfeed host parameters, width and distance, default to `1.0`.
That value lies outside their own declared range `[-0.25, 0.25]`
(`Plugin.DefaultsAsDeclared`). `process` never reads them: it passes the
plugin's own `CrossFeed` settings (level `-12.0`, delay `6.0`) to the stub.

## Model

| member | source | states |
|---|---|---|
| `Stereo.ApplyFrame` | src/proc.rs:5-82 | the per-frame effect of each transform; sum, difference, left-left and right-right give a mono frame, crossfeed and zero balance give the frame back (effects stated in samples by `Plugin.OutputFrame`, properties in the frame lemmas below) |
| `Stereo.ApplyBlock` | src/proc.rs:6 | the run of a transform over every frame of `iter_samples()`, front to back; keeps the block's length (`Stereo.ApplyBlockPointwise` gives frame i) |
| `Proc.SumMono` | src/proc.rs:5-16 | every new frame has left = right = (old left + old right) / 2; the array equals `ApplyBlock(SumMono, old)` |
| `Proc.DiffMono` | src/proc.rs:18-28 | every new frame has left = right = old left − old right; the array equals `ApplyBlock(DiffMono, old)` |
| `Proc.LeftOnly` | src/proc.rs:30-34 | every right sample becomes 0 and every left sample is kept (left is not copied to the right) |
| `Proc.LeftLeft` | src/proc.rs:36-40 | every right sample becomes the old left sample; left is kept |
| `Proc.RightOnly` | src/proc.rs:42-46 | every left sample becomes 0 and every right sample is kept |
| `Proc.RightRight` | src/proc.rs:48-52 | every left sample becomes the old right sample; right is kept |
| `Proc.Crossfeed` | src/proc.rs:56-64 | the stub leaves any block unchanged, whatever the level and delay |
| `Proc.Scale` | src/proc.rs:80-82 | the chosen sample of one frame is multiplied by (1 − s); the other channel and every other frame are unchanged |
| `Proc.Balance` | src/proc.rs:66-77 | corrected balance: zero leaves the block unchanged; a positive amount scales each left sample by (1 − bal); a negative one scales each right sample by (1 − abs(bal)); the other channel is untouched |
| `Proc.BalanceAsCompiled` | src/proc.rs:66-78 | balance as written: the scaling map is never consumed, so the block is unchanged for every amount |
| `Stereo.ApplyBlockPointwise` | src/proc.rs:6 | a transformed block has the input's length, and output frame i is the transform of input frame i alone |
| `Stereo.ApplyBlockCharacterised` | src/proc.rs:6 | a block is the transformed input exactly when it has the same length and agrees with it frame by frame |
| `Stereo.SumMonoFrameCharacterised` | src/proc.rs:7-14 | sum-to-mono is the one frame map that gives a mono frame and keeps the total left + right |
| `Stereo.SumMonoBlockIsMono` | src/proc.rs:5-16 | after sum-to-mono every frame is mono and keeps its input's channel total |
| `Stereo.DiffMonoFrameCancels` | src/proc.rs:18-28 | difference-to-mono gives a mono frame, and gives silence exactly when the input frame was mono |
| `Stereo.DiffMonoBlockCancels` | src/proc.rs:18-28 | over a block, output frame i is silent exactly when input frame i has equal channels |
| `Stereo.DiffMonoTwiceSilences` | src/proc.rs:18-28 | difference-to-mono applied twice silences every frame |
| `Stereo.IdempotentBlock` | src/proc.rs:5-52 | sum, the four single-side transforms, crossfeed and zero balance: applying twice equals applying once |
| `Stereo.IdentityBlock` | src/proc.rs:56-70 | crossfeed (any level and delay) and balance by zero leave every block unchanged |
| `Stereo.MirrorFrame` | src/proc.rs:30-82 | on one frame, each right-side transform is its left-side partner seen through a channel swap, and balance by −b is balance by b mirrored |
| `Stereo.MirrorBlock` | src/proc.rs:30-82 | the same mirror relation over whole blocks, so `right_only`/`right_right` and the negative balance branch are exact mirrors of `left_only`/`left_left` and the positive branch |
| `Stereo.ScaledShrinks` | src/proc.rs:80-82 | for 0 ≤ s ≤ 1 the scale helper never increases a sample's magnitude |
| `Stereo.BalanceFrameNeverBoosts` | src/proc.rs:66-82 | with an amount in [−1, 1], balance never increases the magnitude of either sample of a frame |
| `Stereo.BalanceBlockNeverBoosts` | src/proc.rs:66-82 | the same bound over a whole block |
| `Stereo.BalanceFrameFixed` | src/proc.rs:66-82 | balance leaves a frame unchanged exactly when the amount is zero or the scaled channel's sample is zero |
| `Stereo.BalanceIdentityIff` | src/proc.rs:66-82 | the corrected balance agrees with the as-written identity on a block exactly when the amount is zero or the scaled channel is silent throughout |
| `Stereo.BalanceScalesExample` | src/proc.rs:66-82 | on the block [(1, 1)], balance 0.25 gives [(0.75, 1)] and balance −0.25 gives [(1, 0.75)]; both differ from the input |
| `Stereo.RoutingExample` | src/proc.rs:5-28 | [(1,0), (0,1), (1,1), (−1,1)] sums to [(0.5,0.5), (0.5,0.5), (1,1), (0,0)] and differences to [(1,1), (−1,−1), (0,0), (−2,−2)] |
| `Plugin.Id` | src/lib.rs:49-66 | the identifier each output mode is declared with (`Plugin.IdsDistinct` proves them pairwise distinct) |
| `Plugin.IdsDistinct` | src/lib.rs:47-67 | the nine output modes have pairwise distinct identifiers |
| `Plugin.DefaultCrossFeed` | src/lib.rs:79-87 | the crossfeed settings of a fresh plugin: level −12.0, delay 6.0, filter 0 (stated by `Plugin.DefaultsAsDeclared`) |
| `Plugin.DefaultParams` | src/lib.rs:89-120 | the parameter set of a fresh plugin: mode LeftRightSum, width and distance 1.0 and balance 0.0, each over `[-0.25, 0.25]` (stated by `Plugin.DefaultsAsDeclared`) |
| `Plugin.DefaultSoc` | src/lib.rs:69-77 | a fresh plugin: the default parameters and crossfeed settings (`Plugin.DefaultsAsDeclared`, `Plugin.DefaultOutputIsSumMono`) |
| `Plugin.DefaultsAsDeclared` | src/lib.rs:79-120 | default mode is LeftRightSum; balance defaults to 0.0 within [−0.25, 0.25]; crossfeed level and delay default to −12.0 and 6.0 with filter 0; both crossfeed host parameters default outside their range |
| `Plugin.Initialize` | src/lib.rs:149-166 | a missing main input is the "no input channels" failure; otherwise the result is true exactly when the main input has 2 channels |
| `Plugin.InitializeAcceptsStereoOnly` | src/lib.rs:130-165 | the declared stereo layout is accepted, and a layout is accepted exactly when its main input has 2 channels |
| `Plugin.TransformFor` | src/lib.rs:175-190 | no transform exactly for LeftRight; otherwise the transform's arm is the mode itself; Balance carries the current balance value and Crossfeed the level and delay |
| `Plugin.DispatchInjective` | src/lib.rs:175-190 | two modes select the same transform only when they are the same mode, so each arm invokes a different transform |
| `Plugin.Output` | src/lib.rs:175-190 | the block a processing call leaves: unchanged for LeftRight, otherwise the selected transform's `ApplyBlock`; keeps the length (`Plugin.OutputFrame` states it mode by mode) |
| `Plugin.Process` | src/lib.rs:168-193 | the buffer becomes `Output` of its old contents, with exactly the selected mode's transform run, and the status is always Normal |
| `Plugin.OutputFrame` | src/lib.rs:175-190 | frame i of the processed block for each of the nine modes, stated in samples |
| `Plugin.OutputUnchanged` | src/lib.rs:176-189 | LeftRight, Crossfeed and a zero Balance leave the block unchanged |
| `Plugin.OutputEmptyBlock` | src/lib.rs:175-190 | a zero-length block stays empty in every mode |
| `Plugin.DefaultOutputIsSumMono` | src/lib.rs:93 | a fresh plugin turns every frame into the mono mean of its channels |
| `Plugin.BalanceModeNeverBoosts` | src/lib.rs:110-117 | in Balance mode, with the value in its declared range, no sample grows in magnitude |
| `Plugin.OutputIdempotent` | src/lib.rs:175-190 | every mode except LeftRightDiff and nonzero Balance gives the same block when processed twice as once |

## Left out

- Crossfeed mixing and the delay line. The delay buffer type lives in
  `src/buffer.rs`, which is not part of this model. The mixing exists only as
  commented-out code. `Proc.Crossfeed` drops the delay-buffer parameter,
  because the only call site passes three arguments.
- `Proc.SumMono`: the source sums over however many channels the frame has.
  The model adds the two channels of a `Frame` one after the other, because
  the layout fixes two channels.
- `Plugin.Process`: its Balance arm runs the corrected `Proc.Balance`, not
  the as-written no-op. So `Plugin.Process`, `Plugin.Output`,
  `Plugin.OutputFrame`, `Plugin.BalanceModeNeverBoosts` and
  `Plugin.OutputIdempotent` describe the plugin with the balance defect
  repaired. As written, Balance mode leaves every block unchanged (see
  Findings).
- `Proc.Balance`: models the loop the closure spells out, not the as-written
  no-op. `Proc.BalanceAsCompiled` models the code as written (see Findings).
- The buffer as an array of frames, not per-channel slices. How the host's
  channel slices alias each other is not modelled.
- IEEE-754 single-precision rounding and non-finite values. Samples are
  exact reals, so sum-to-mono idempotence holds over reals and not
  necessarily bit for bit.
- `Plugin.Initialize`: the buffer configuration and the init context are not
  used by the source and are not modelled. The output-channel count is not
  checked, because the source does not check it.
- Host glue: plugin metadata constants, CLAP and VST3 registration, the
  export macros, parameter persistence, `Arc` and atomic parameter objects.
  Parameter values are plain inputs read once per call.
- The GUI editor (`src/editor.rs`). Its only logic, the event handler, is an
  empty stub.
- `src/process.rs`: the crate does not declare it, and it does not compile.
  Its valid parts duplicate `src/proc.rs`.
- Threading and real-time scheduling. A processing call is one sequential
  method call.

## Findings

| source | as written | input that shows it | evidently intended | confidence | as-written member | corrected member |
|---|---|---|---|---|---|---|
| src/proc.rs:75-77 | `balance` builds `buf.iter_samples().map(...)` and binds it to `_`. Rust iterators are lazy, so the closure never runs and no sample is scaled. | `bal = 0.25` on the block [(1, 1)]: the code as written returns [(1, 1)], the closure spells out [(0.75, 1)] (`Stereo.BalanceScalesExample`) | each left sample times (1 − bal) for a positive amount; each right sample times (1 − abs(bal)) for a negative one | high; not executed | `Proc.BalanceAsCompiled` | `Proc.Balance` |

`Stereo.BalanceIdentityIff` states exactly where the two differ. The as-written
identity and the corrected balance give the same block only when the amount is
zero or the scaled channel is already silent. `Plugin.Process` uses the
corrected `Proc.Balance`.
