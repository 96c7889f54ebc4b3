/**
  The plugin of src/lib.rs: the output-mode enumeration, the parameter and
  crossfeed defaults, the channel check made when the host initializes the
  plugin, and the dispatcher that runs one transform per processing call.

  Parameter objects that the host shares and persists are modelled as plain
  values read once per call.
*/
module Plugin {
  import S = Stereo
  import Proc
  import opened Wrappers

  /** The closed set of output modes; exactly one is selected per call. */
  datatype OutputMode =
    | LeftRight
    | Left
    | LeftLeft
    | LeftRightSum
    | LeftRightDiff
    | RightRight
    | Right
    | Crossfeed
    | Balance

  /** The identifier each variant is declared with, used by the host to save the selection. */
  function Id(m: OutputMode): string {
    match m
    case LeftRight => "LR"
    case Left => "L"
    case LeftLeft => "LL"
    case LeftRightSum => "L+R"
    case LeftRightDiff => "L-R"
    case RightRight => "RR"
    case Right => "R"
    case Crossfeed => "CF"
    case Balance => "BAL"
  }

  /** No two variants share an identifier. */
  lemma IdsDistinct(m1: OutputMode, m2: OutputMode)
    ensures Id(m1) == Id(m2) <==> m1 == m2
  {
  }

  // ---------------------------------------------------------------------
  // Parameters and defaults

  datatype FloatRange = Linear(min: real, max: real)

  /** A continuous parameter: its name, its current value and its declared range. */
  datatype FloatParam = FloatParam(name: string, value: real, range: FloatRange)

  predicate InRange(p: FloatParam) {
    p.range.min <= p.value <= p.range.max
  }

  /** The mode-selection parameter and its current value. */
  datatype EnumParam = EnumParam(name: string, value: OutputMode)

  /** The parameter set the host exposes (the editor state is not modelled). */
  datatype SocParams = SocParams(
    outputMode: EnumParam,
    cfWidth: FloatParam,
    cfDistance: FloatParam,
    balance: FloatParam)

  /** The crossfeed settings the plugin keeps for itself, outside the host's parameters. */
  datatype CrossFeed = CrossFeed(level: real, delay: real, filter: nat)

  /** The plugin state: the parameter snapshot and the crossfeed settings. */
  datatype Soc = Soc(params: SocParams, cf: CrossFeed)

  function DefaultCrossFeed(): CrossFeed {
    CrossFeed(-12.0, 6.0, 0)
  }

  /** Each parameter's value in a fresh instance is its declared default. */
  function DefaultParams(): SocParams {
    SocParams(
      EnumParam("MonoMode", LeftRightSum),
      FloatParam("Crossfeed Width", 1.0, Linear(-0.25, 0.25)),
      FloatParam("Crossfeed Distance", 1.0, Linear(-0.25, 0.25)),
      FloatParam("Balance", 0.0, Linear(-0.25, 0.25)))
  }

  function DefaultSoc(): Soc {
    Soc(DefaultParams(), DefaultCrossFeed())
  }

  /** The defaults as declared, including the two crossfeed defaults that lie outside their own range. */
  lemma DefaultsAsDeclared()
    ensures DefaultSoc().params.outputMode.value == LeftRightSum
    ensures DefaultSoc().params.balance.value == 0.0
    ensures DefaultSoc().params.balance.range == Linear(-0.25, 0.25)
    ensures InRange(DefaultSoc().params.balance)
    ensures !InRange(DefaultSoc().params.cfWidth) && !InRange(DefaultSoc().params.cfDistance)
    ensures DefaultSoc().cf == CrossFeed(-12.0, 6.0, 0)
  {
  }

  // ---------------------------------------------------------------------
  // Initialization

  /** A channel count as the host reports it: a nonzero 32-bit unsigned integer. */
  type NonZeroU32 = n: int | 1 <= n < 0x1_0000_0000 witness 1

  datatype AudioIOLayout = AudioIOLayout(
    mainInputChannels: Option<NonZeroU32>,
    mainOutputChannels: Option<NonZeroU32>)

  /** The one layout the plugin declares: two channels in, two out. */
  const StereoLayout := AudioIOLayout(Some(2), Some(2))

  /**
    The host's initialization call.  A layout without a main input is a
    panic ("no input channels"), modelled as a failure; otherwise the plugin
    accepts exactly a two-channel main input.
  */
  function Initialize(layout: AudioIOLayout): (r: Result<bool, string>)
    ensures r.Failure? <==> layout.mainInputChannels.None?
    ensures r.Failure? ==> r.error == "no input channels"
    ensures r.Success? ==> (r.value <==> layout.mainInputChannels.value == 2)
  {
    match layout.mainInputChannels
    case None => Failure("no input channels")
    case Some(n) => if n != 2 then Success(false) else Success(true)
  }

  /** The declared layout is accepted, and every accepted layout has a stereo main input. */
  lemma InitializeAcceptsStereoOnly(layout: AudioIOLayout)
    ensures Initialize(StereoLayout) == Success(true)
    ensures Initialize(layout) == Success(true) <==> layout.mainInputChannels == Some(2)
  {
  }

  // ---------------------------------------------------------------------
  // Dispatch

  /** What a processing call reports back to the host. */
  datatype ProcessStatus = Error(message: string) | Normal | Tail(samples: nat) | KeepAlive

  /** The mode whose arm calls a transform: the inverse of the dispatch. */
  function ModeOf(t: S.Transform): OutputMode {
    match t
    case SumMono => LeftRightSum
    case DiffMono => LeftRightDiff
    case LeftOnly => Left
    case LeftLeft => LeftLeft
    case RightOnly => Right
    case RightRight => RightRight
    case Crossfeed(_, _) => Crossfeed
    case Balance(_) => Balance
  }

  /**
    The transform the dispatcher runs for a mode, if any: none for
    LeftRight, and for every other mode the one transform whose arm that
    mode is, with the current balance value or the crossfeed settings.
  */
  function TransformFor(mode: OutputMode, bal: real, cf: CrossFeed): (t: Option<S.Transform>)
    ensures t.None? <==> mode == LeftRight
    ensures t.Some? ==> ModeOf(t.value) == mode
    ensures mode == Balance ==> t == Some(S.Balance(bal))
    ensures mode == Crossfeed ==> t == Some(S.Crossfeed(cf.level, cf.delay))
  {
    match mode
    case LeftRight => None
    case Left => Some(S.LeftOnly)
    case LeftLeft => Some(S.LeftLeft)
    case LeftRightSum => Some(S.SumMono)
    case LeftRightDiff => Some(S.DiffMono)
    case Right => Some(S.RightOnly)
    case RightRight => Some(S.RightRight)
    case Crossfeed => Some(S.Crossfeed(cf.level, cf.delay))
    case Balance => Some(S.Balance(bal))
  }

  /** Different modes never run the same transform. */
  lemma DispatchInjective(m1: OutputMode, m2: OutputMode, bal: real, cf: CrossFeed)
    ensures TransformFor(m1, bal, cf) == TransformFor(m2, bal, cf) <==> m1 == m2
  {
  }

  /** The block a processing call leaves behind: as long as the block it was given. */
  function Output(soc: Soc, s: seq<S.Frame>): (r: seq<S.Frame>)
    ensures |r| == |s|
  {
    match TransformFor(soc.params.outputMode.value, soc.params.balance.value, soc.cf)
    case None => s
    case Some(t) => S.ApplyBlock(t, s)
  }

  /**
    One processing call: the selected mode's transform rewrites the buffer
    in place, and the call always reports normal processing.
  */
  method Process(soc: Soc, buffer: array<S.Frame>) returns (status: ProcessStatus)
    modifies buffer
    ensures status == Normal
    ensures buffer[..] == Output(soc, old(buffer[..]))
  {
    match soc.params.outputMode.value {
      case LeftRight =>
      case Left => Proc.LeftOnly(buffer);
      case LeftLeft => Proc.LeftLeft(buffer);
      case LeftRightSum => Proc.SumMono(buffer);
      case LeftRightDiff => Proc.DiffMono(buffer);
      case Right => Proc.RightOnly(buffer);
      case RightRight => Proc.RightRight(buffer);
      case Crossfeed => Proc.Crossfeed(buffer, soc.cf.level, soc.cf.delay);
      case Balance => Proc.Balance(buffer, soc.params.balance.value);
    }
    status := Normal;
  }

  // ---------------------------------------------------------------------
  // What a processing call does, mode by mode

  /** Frame i of the output, for each of the nine modes. */
  lemma OutputFrame(soc: Soc, s: seq<S.Frame>, i: nat)
    requires i < |s|
    ensures |Output(soc, s)| == |s|
    ensures var f, o := s[i], Output(soc, s)[i];
            match soc.params.outputMode.value
            case LeftRight => o == f
            case Left => o == S.Frame(f.l, 0.0)
            case LeftLeft => o == S.Frame(f.l, f.l)
            case LeftRightSum => o.l == o.r == (f.l + f.r) / 2.0
            case LeftRightDiff => o.l == o.r == f.l - f.r
            case Right => o == S.Frame(0.0, f.r)
            case RightRight => o == S.Frame(f.r, f.r)
            case Crossfeed => o == f
            case Balance =>
              var b := soc.params.balance.value;
              if b > 0.0 then o == S.Frame(f.l * (1.0 - b), f.r)
              else if b < 0.0 then o == S.Frame(f.l, f.r * (1.0 + b))
              else o == f
  {
    match TransformFor(soc.params.outputMode.value, soc.params.balance.value, soc.cf)
    case None =>
    case Some(t) => S.ApplyBlockPointwise(t, s);
  }

  /** Passthrough, crossfeed (a stub) and a zero balance leave the block as it was. */
  lemma OutputUnchanged(soc: Soc, s: seq<S.Frame>)
    requires soc.params.outputMode.value in {LeftRight, Crossfeed} ||
             (soc.params.outputMode.value == Balance && soc.params.balance.value == 0.0)
    ensures Output(soc, s) == s
  {
    match TransformFor(soc.params.outputMode.value, soc.params.balance.value, soc.cf)
    case None =>
    case Some(t) => S.IdentityBlock(t, s);
  }

  /** A zero-length block comes back empty in every mode. */
  lemma OutputEmptyBlock(soc: Soc)
    ensures Output(soc, []) == []
  {
  }

  /** A freshly created plugin sums every block to mono. */
  lemma DefaultOutputIsSumMono(s: seq<S.Frame>)
    ensures |Output(DefaultSoc(), s)| == |s|
    ensures forall i | 0 <= i < |s| ::
              S.IsMono(Output(DefaultSoc(), s)[i]) &&
              Output(DefaultSoc(), s)[i].l == (s[i].l + s[i].r) / 2.0
  {
    S.ApplyBlockPointwise(S.SumMono, s);
  }

  /** Within its declared range the balance parameter only ever attenuates. */
  lemma BalanceModeNeverBoosts(soc: Soc, s: seq<S.Frame>)
    requires soc.params.outputMode.value == Balance
    requires -0.25 <= soc.params.balance.value <= 0.25
    ensures |Output(soc, s)| == |s|
    ensures forall i | 0 <= i < |s| ::
              S.Abs(Output(soc, s)[i].l) <= S.Abs(s[i].l) &&
              S.Abs(Output(soc, s)[i].r) <= S.Abs(s[i].r)
  {
    S.BalanceBlockNeverBoosts(soc.params.balance.value, s);
  }

  /** Running the same mono-producing or silencing mode twice is running it once. */
  lemma OutputIdempotent(soc: Soc, s: seq<S.Frame>)
    requires soc.params.outputMode.value != LeftRightDiff
    requires soc.params.outputMode.value == Balance ==> soc.params.balance.value == 0.0
    ensures Output(soc, Output(soc, s)) == Output(soc, s)
  {
    match TransformFor(soc.params.outputMode.value, soc.params.balance.value, soc.cf)
    case None =>
    case Some(t) => S.IdempotentBlock(t, s);
  }
}
