/**
  Stereo frames and what each channel-routing transform does to them.

  A block handed to the plugin by its host is a sequence of frames; every
  transform rewrites each frame from that frame alone.  `ApplyFrame` is the
  per-frame effect and `ApplyBlock` its extension to a whole block, walking
  the block front to back the way the source's `for` loops do.  The in-place
  transforms in module Proc are proved to leave the buffer equal to
  `ApplyBlock` of its old contents; the lemmas here say what that means.
*/
module Stereo {

  /** One point in time of a two-channel block: channel 0 is left, channel 1 is right. */
  datatype Frame = Frame(l: real, r: real)

  /** The frame of two silent samples. */
  const Silence := Frame(0.0, 0.0)

  /** Both channels carry the same sample. */
  predicate IsMono(f: Frame) { f.l == f.r }

  /** The frame with its two channels exchanged. */
  function Swap(f: Frame): Frame { Frame(f.r, f.l) }

  /** The sample on channel `ch` (0 = left, 1 = right). */
  function Sample(f: Frame, ch: nat): real
    requires ch < 2
  {
    if ch == 0 then f.l else f.r
  }

  /** `f` with the sample on channel `ch` replaced by `v`. */
  function WithSample(f: Frame, ch: nat, v: real): Frame
    requires ch < 2
  {
    if ch == 0 then f.(l := v) else f.(r := v)
  }

  /** The balance helper's gain: the sample times (1 - s). */
  function Scaled(x: real, s: real): real { x * (1.0 - s) }

  /** Absolute value of a sample. */
  function Abs(x: real): real { if x < 0.0 then -x else x }

  /** The transforms of src/proc.rs, named after the function that implements each. */
  datatype Transform =
    | SumMono
    | DiffMono
    | LeftOnly
    | LeftLeft
    | RightOnly
    | RightRight
    | Crossfeed(level: real, delay: real)
    | Balance(bal: real)

  /** Transforms that put the same sample on both channels. */
  predicate IsMonoMaker(t: Transform) {
    t.SumMono? || t.DiffMono? || t.LeftLeft? || t.RightRight?
  }

  /**
    Per-frame effect of a transform.  The four mono-making transforms give a
    mono frame, and the identity transforms give the frame back.
  */
  function ApplyFrame(t: Transform, f: Frame): (r: Frame)
    ensures IsMonoMaker(t) ==> IsMono(r)
    ensures IsIdentity(t) ==> r == f
  {
    match t
    case SumMono => var m := (f.l + f.r) / 2.0; Frame(m, m)
    case DiffMono => var d := f.l - f.r; Frame(d, d)
    case LeftOnly => Frame(f.l, 0.0)
    case LeftLeft => Frame(f.l, f.l)
    case RightOnly => Frame(0.0, f.r)
    case RightRight => Frame(f.r, f.r)
    // The crossfeed function has an empty body.
    case Crossfeed(_, _) => f
    // A positive amount scales channel 0 (left); a negative one is negated
    // and scales channel 1 (right); zero returns early.
    case Balance(bal) =>
      if bal == 0.0 then f
      else if bal < 0.0 then Frame(f.l, Scaled(f.r, -bal))
      else Frame(Scaled(f.l, bal), f.r)
  }

  /** A transform applied to every frame of a block, first frame first; the length is kept. */
  function ApplyBlock(t: Transform, s: seq<Frame>): (r: seq<Frame>)
    ensures |r| == |s|
  {
    if s == [] then [] else [ApplyFrame(t, s[0])] + ApplyBlock(t, s[1..])
  }

  /** Every frame exchanged. */
  function SwapBlock(s: seq<Frame>): seq<Frame> {
    if s == [] then [] else [Swap(s[0])] + SwapBlock(s[1..])
  }

  /** The transform that does on the right what `t` does on the left, and vice versa. */
  function Mirror(t: Transform): Transform {
    match t
    case SumMono => SumMono
    case DiffMono => DiffMono
    case LeftOnly => RightOnly
    case LeftLeft => RightRight
    case RightOnly => LeftOnly
    case RightRight => LeftLeft
    case Crossfeed(level, delay) => Crossfeed(level, delay)
    case Balance(bal) => Balance(-bal)
  }

  /** Transforms that leave every frame as it was. */
  predicate IsIdentity(t: Transform) {
    t.Crossfeed? || t == Balance(0.0)
  }

  /** Transforms for which a second application changes nothing. */
  predicate IsIdempotent(t: Transform) {
    !t.DiffMono? && (t.Balance? ==> t.bal == 0.0)
  }

  // ---------------------------------------------------------------------
  // Frame-level facts

  /** Sum-to-mono is the only map to a mono frame that keeps the channel total. */
  lemma SumMonoFrameCharacterised(f: Frame, g: Frame)
    ensures g == ApplyFrame(SumMono, f) <==> IsMono(g) && g.l + g.r == f.l + f.r
  {
  }

  /** Difference-to-mono silences a frame exactly when the frame is mono. */
  lemma DiffMonoFrameCancels(f: Frame)
    ensures IsMono(ApplyFrame(DiffMono, f))
    ensures ApplyFrame(DiffMono, f) == Silence <==> IsMono(f)
  {
  }

  lemma MirrorFrame(t: Transform, f: Frame)
    requires !t.DiffMono?
    ensures ApplyFrame(Mirror(t), f) == Swap(ApplyFrame(t, Swap(f)))
  {
  }

  /** With an amount in [-1, 1] balance only attenuates: no sample grows in magnitude. */
  lemma BalanceFrameNeverBoosts(bal: real, f: Frame)
    requires -1.0 <= bal <= 1.0
    ensures Abs(ApplyFrame(Balance(bal), f).l) <= Abs(f.l)
    ensures Abs(ApplyFrame(Balance(bal), f).r) <= Abs(f.r)
  {
    if bal > 0.0 {
      ScaledShrinks(f.l, bal);
    } else if bal < 0.0 {
      ScaledShrinks(f.r, -bal);
    }
  }

  lemma ScaledShrinks(x: real, s: real)
    requires 0.0 <= s <= 1.0
    ensures Abs(Scaled(x, s)) <= Abs(x)
  {
    var g := 1.0 - s;
    assert 0.0 <= g <= 1.0;
    if x >= 0.0 {
      assert x * g <= x * 1.0;
      assert x * g >= 0.0;
    } else {
      assert x * g >= x * 1.0;
      assert x * g <= 0.0;
    }
  }

  // ---------------------------------------------------------------------
  // Block-level facts

  /** A transformed block has the input's length and frame i depends on input frame i alone. */
  lemma {:induction false} ApplyBlockPointwise(t: Transform, s: seq<Frame>)
    ensures |ApplyBlock(t, s)| == |s|
    ensures forall i | 0 <= i < |s| :: ApplyBlock(t, s)[i] == ApplyFrame(t, s[i])
  {
    if s != [] {
      ApplyBlockPointwise(t, s[1..]);
      var r := ApplyBlock(t, s);
      assert r == [ApplyFrame(t, s[0])] + ApplyBlock(t, s[1..]);
      forall i | 0 <= i < |s| ensures r[i] == ApplyFrame(t, s[i]) {
        if i > 0 {
          assert r[i] == ApplyBlock(t, s[1..])[i - 1];
          assert s[1..][i - 1] == s[i];
        }
      }
    }
  }

  /** A block is the transformed input exactly when it agrees with it frame by frame. */
  lemma ApplyBlockCharacterised(t: Transform, s: seq<Frame>, r: seq<Frame>)
    ensures r == ApplyBlock(t, s) <==>
            |r| == |s| && forall i | 0 <= i < |s| :: r[i] == ApplyFrame(t, s[i])
  {
    ApplyBlockPointwise(t, s);
    if |r| == |s| && forall i | 0 <= i < |s| :: r[i] == ApplyFrame(t, s[i]) {
      assert forall i | 0 <= i < |r| :: r[i] == ApplyBlock(t, s)[i];
    }
  }

  /** Crossfeed and balance by zero leave any block unchanged. */
  lemma {:induction false} IdentityBlock(t: Transform, s: seq<Frame>)
    requires IsIdentity(t)
    ensures ApplyBlock(t, s) == s
  {
    if s != [] {
      IdentityBlock(t, s[1..]);
      assert s == [s[0]] + s[1..];
    }
  }

  /** Applying any transform but difference-to-mono or a nonzero balance twice is applying it once. */
  lemma {:induction false} IdempotentBlock(t: Transform, s: seq<Frame>)
    requires IsIdempotent(t)
    ensures ApplyBlock(t, ApplyBlock(t, s)) == ApplyBlock(t, s)
  {
    if s != [] {
      IdempotentBlock(t, s[1..]);
      var once := ApplyBlock(t, s);
      assert once == [ApplyFrame(t, s[0])] + ApplyBlock(t, s[1..]);
      assert once[0] == ApplyFrame(t, s[0]) && once[1..] == ApplyBlock(t, s[1..]);
      assert ApplyFrame(t, ApplyFrame(t, s[0])) == ApplyFrame(t, s[0]);
    }
  }

  /** The right-side transforms are the left-side ones seen through a channel swap. */
  lemma {:induction false} MirrorBlock(t: Transform, s: seq<Frame>)
    requires !t.DiffMono?
    ensures ApplyBlock(Mirror(t), s) == SwapBlock(ApplyBlock(t, SwapBlock(s)))
  {
    if s != [] {
      MirrorBlock(t, s[1..]);
      MirrorFrame(t, s[0]);
      var w := SwapBlock(s);
      assert w == [Swap(s[0])] + SwapBlock(s[1..]);
      assert w[0] == Swap(s[0]) && w[1..] == SwapBlock(s[1..]);
      var v := ApplyBlock(t, w);
      assert v == [ApplyFrame(t, w[0])] + ApplyBlock(t, w[1..]);
      assert v[0] == ApplyFrame(t, Swap(s[0])) && v[1..] == ApplyBlock(t, SwapBlock(s[1..]));
    }
  }

  /** Sum-to-mono yields a mono block that keeps each frame's channel total. */
  lemma SumMonoBlockIsMono(s: seq<Frame>)
    ensures |ApplyBlock(SumMono, s)| == |s|
    ensures forall i | 0 <= i < |s| ::
              IsMono(ApplyBlock(SumMono, s)[i]) &&
              ApplyBlock(SumMono, s)[i].l + ApplyBlock(SumMono, s)[i].r == s[i].l + s[i].r
  {
    ApplyBlockPointwise(SumMono, s);
  }

  /** Difference-to-mono silences frame i exactly when input frame i is mono. */
  lemma DiffMonoBlockCancels(s: seq<Frame>)
    ensures |ApplyBlock(DiffMono, s)| == |s|
    ensures forall i | 0 <= i < |s| :: ApplyBlock(DiffMono, s)[i] == Silence <==> IsMono(s[i])
  {
    ApplyBlockPointwise(DiffMono, s);
  }

  /** Difference-to-mono applied twice silences the whole block. */
  lemma DiffMonoTwiceSilences(s: seq<Frame>)
    ensures |ApplyBlock(DiffMono, ApplyBlock(DiffMono, s))| == |s|
    ensures forall i | 0 <= i < |s| :: ApplyBlock(DiffMono, ApplyBlock(DiffMono, s))[i] == Silence
  {
    ApplyBlockPointwise(DiffMono, s);
    ApplyBlockPointwise(DiffMono, ApplyBlock(DiffMono, s));
  }

  /** With a declared-range amount, balance never makes any sample louder. */
  lemma BalanceBlockNeverBoosts(bal: real, s: seq<Frame>)
    requires -1.0 <= bal <= 1.0
    ensures |ApplyBlock(Balance(bal), s)| == |s|
    ensures forall i | 0 <= i < |s| ::
              Abs(ApplyBlock(Balance(bal), s)[i].l) <= Abs(s[i].l) &&
              Abs(ApplyBlock(Balance(bal), s)[i].r) <= Abs(s[i].r)
  {
    ApplyBlockPointwise(Balance(bal), s);
    forall i | 0 <= i < |s|
      ensures Abs(ApplyFrame(Balance(bal), s[i]).l) <= Abs(s[i].l)
      ensures Abs(ApplyFrame(Balance(bal), s[i]).r) <= Abs(s[i].r)
    {
      BalanceFrameNeverBoosts(bal, s[i]);
    }
  }

  /** The channel balance scales: 0 for a positive amount, 1 for a negative one. */
  function BalanceChannel(bal: real): (ch: nat)
    ensures ch < 2
  {
    if bal < 0.0 then 1 else 0
  }

  /**
    Balance leaves a block unchanged exactly when the amount is zero or every
    sample on the channel it scales is already silent.
  */
  lemma BalanceIdentityIff(bal: real, s: seq<Frame>)
    ensures ApplyBlock(Balance(bal), s) == s <==>
            bal == 0.0 || forall i | 0 <= i < |s| :: Sample(s[i], BalanceChannel(bal)) == 0.0
  {
    ApplyBlockCharacterised(Balance(bal), s, s);
    forall i | 0 <= i < |s|
      ensures ApplyFrame(Balance(bal), s[i]) == s[i] <==>
              bal == 0.0 || Sample(s[i], BalanceChannel(bal)) == 0.0
    {
      BalanceFrameFixed(bal, s[i]);
    }
  }

  lemma BalanceFrameFixed(bal: real, f: Frame)
    ensures ApplyFrame(Balance(bal), f) == f <==> bal == 0.0 || Sample(f, BalanceChannel(bal)) == 0.0
  {
  }

  /** One frame on which the scaling balance and the identity differ. */
  lemma BalanceScalesExample()
    ensures ApplyBlock(Balance(0.25), [Frame(1.0, 1.0)]) == [Frame(0.75, 1.0)]
    ensures ApplyBlock(Balance(-0.25), [Frame(1.0, 1.0)]) == [Frame(1.0, 0.75)]
    ensures ApplyBlock(Balance(0.25), [Frame(1.0, 1.0)]) != [Frame(1.0, 1.0)]
  {
  }

  /** The four-frame block [(1,0), (0,1), (1,1), (-1,1)] under sum and difference. */
  lemma RoutingExample()
    ensures ApplyBlock(SumMono, [Frame(1.0, 0.0), Frame(0.0, 1.0), Frame(1.0, 1.0), Frame(-1.0, 1.0)])
            == [Frame(0.5, 0.5), Frame(0.5, 0.5), Frame(1.0, 1.0), Frame(0.0, 0.0)]
    ensures ApplyBlock(DiffMono, [Frame(1.0, 0.0), Frame(0.0, 1.0), Frame(1.0, 1.0), Frame(-1.0, 1.0)])
            == [Frame(1.0, 1.0), Frame(-1.0, -1.0), Frame(0.0, 0.0), Frame(-2.0, -2.0)]
  {
  }
}
