/**
  The in-place transforms of src/proc.rs.

  The host's buffer is an array of frames.  The six routing transforms and
  Balance walk it with a `for` loop, overwriting one or both samples of the
  current frame; the loop invariant is always the same pair: frames before
  `i` are done, frames from `i` on are untouched.  Crossfeed has no loop,
  since its body is empty.  These eight methods are proved to leave the array
  equal to `Stereo.ApplyBlock` of its old contents.  Scale, the helper that
  rewrites one sample, and BalanceAsCompiled, which changes nothing, state
  their effect directly instead.
*/
module Proc {
  import S = Stereo

  /** Every frame becomes the mean of its two channels, on both channels. */
  method SumMono(buf: array<S.Frame>)
    modifies buf
    ensures forall i | 0 <= i < buf.Length ::
              buf[i].l == buf[i].r == (old(buf[i].l) + old(buf[i].r)) / 2.0
    ensures buf[..] == S.ApplyBlock(S.SumMono, old(buf[..]))
  {
    ghost var s := buf[..];
    for i := 0 to buf.Length
      invariant forall k | 0 <= k < i :: buf[k].l == buf[k].r == (old(buf[k].l) + old(buf[k].r)) / 2.0
      invariant forall k | i <= k < buf.Length :: buf[k] == old(buf[k])
    {
      // Accumulate every channel's sample, then halve.
      var newSamp: real := 0.0;
      newSamp := newSamp + buf[i].l;
      newSamp := newSamp + buf[i].r;
      newSamp := newSamp / 2.0;
      // Both channels receive the mean.
      buf[i] := S.Frame(newSamp, newSamp);
    }
    assert buf[..] == S.ApplyBlock(S.SumMono, s) by {
      S.ApplyBlockCharacterised(S.SumMono, s, buf[..]);
    }
  }

  /** Every frame becomes left minus right, on both channels. */
  method DiffMono(buf: array<S.Frame>)
    modifies buf
    ensures forall i | 0 <= i < buf.Length ::
              buf[i].l == buf[i].r == old(buf[i].l) - old(buf[i].r)
    ensures buf[..] == S.ApplyBlock(S.DiffMono, old(buf[..]))
  {
    ghost var s := buf[..];
    for i := 0 to buf.Length
      invariant forall k | 0 <= k < i :: buf[k].l == buf[k].r == old(buf[k].l) - old(buf[k].r)
      invariant forall k | i <= k < buf.Length :: buf[k] == old(buf[k])
    {
      var newSamp: real := 0.0;
      newSamp := newSamp + buf[i].l;
      newSamp := newSamp - buf[i].r;
      // Both channels receive the difference.
      buf[i] := S.Frame(newSamp, newSamp);
    }
    assert buf[..] == S.ApplyBlock(S.DiffMono, s) by {
      S.ApplyBlockCharacterised(S.DiffMono, s, buf[..]);
    }
  }

  /** The right channel is silenced; the left is not copied over. */
  method LeftOnly(buf: array<S.Frame>)
    modifies buf
    ensures forall i | 0 <= i < buf.Length :: buf[i].l == old(buf[i].l) && buf[i].r == 0.0
    ensures buf[..] == S.ApplyBlock(S.LeftOnly, old(buf[..]))
  {
    ghost var s := buf[..];
    for i := 0 to buf.Length
      invariant forall k | 0 <= k < i :: buf[k].l == old(buf[k].l) && buf[k].r == 0.0
      invariant forall k | i <= k < buf.Length :: buf[k] == old(buf[k])
    {
      buf[i] := buf[i].(r := 0.0);
    }
    assert buf[..] == S.ApplyBlock(S.LeftOnly, s) by {
      S.ApplyBlockCharacterised(S.LeftOnly, s, buf[..]);
    }
  }

  /** The left sample is copied onto the right channel. */
  method LeftLeft(buf: array<S.Frame>)
    modifies buf
    ensures forall i | 0 <= i < buf.Length :: buf[i].l == old(buf[i].l) && buf[i].r == old(buf[i].l)
    ensures buf[..] == S.ApplyBlock(S.LeftLeft, old(buf[..]))
  {
    ghost var s := buf[..];
    for i := 0 to buf.Length
      invariant forall k | 0 <= k < i :: buf[k].l == old(buf[k].l) && buf[k].r == old(buf[k].l)
      invariant forall k | i <= k < buf.Length :: buf[k] == old(buf[k])
    {
      buf[i] := buf[i].(r := buf[i].l);
    }
    assert buf[..] == S.ApplyBlock(S.LeftLeft, s) by {
      S.ApplyBlockCharacterised(S.LeftLeft, s, buf[..]);
    }
  }

  /** The left channel is silenced; the right is not copied over. */
  method RightOnly(buf: array<S.Frame>)
    modifies buf
    ensures forall i | 0 <= i < buf.Length :: buf[i].l == 0.0 && buf[i].r == old(buf[i].r)
    ensures buf[..] == S.ApplyBlock(S.RightOnly, old(buf[..]))
  {
    ghost var s := buf[..];
    for i := 0 to buf.Length
      invariant forall k | 0 <= k < i :: buf[k].l == 0.0 && buf[k].r == old(buf[k].r)
      invariant forall k | i <= k < buf.Length :: buf[k] == old(buf[k])
    {
      buf[i] := buf[i].(l := 0.0);
    }
    assert buf[..] == S.ApplyBlock(S.RightOnly, s) by {
      S.ApplyBlockCharacterised(S.RightOnly, s, buf[..]);
    }
  }

  /** The right sample is copied onto the left channel. */
  method RightRight(buf: array<S.Frame>)
    modifies buf
    ensures forall i | 0 <= i < buf.Length :: buf[i].l == old(buf[i].r) && buf[i].r == old(buf[i].r)
    ensures buf[..] == S.ApplyBlock(S.RightRight, old(buf[..]))
  {
    ghost var s := buf[..];
    for i := 0 to buf.Length
      invariant forall k | 0 <= k < i :: buf[k].l == old(buf[k].r) && buf[k].r == old(buf[k].r)
      invariant forall k | i <= k < buf.Length :: buf[k] == old(buf[k])
    {
      buf[i] := buf[i].(l := buf[i].r);
    }
    assert buf[..] == S.ApplyBlock(S.RightRight, s) by {
      S.ApplyBlockCharacterised(S.RightRight, s, buf[..]);
    }
  }

  /**
    The crossfeed transform.  Its body is empty (the mixing is commented
    out and the delay is a to-do), so the block is left as it was whatever
    the level and delay.  The delay-buffer argument is not modelled: the
    only call site passes three arguments.
  */
  method Crossfeed(buf: array<S.Frame>, cfL: real, cfD: real)
    modifies buf
    ensures buf[..] == old(buf[..])
    ensures buf[..] == S.ApplyBlock(S.Crossfeed(cfL, cfD), old(buf[..]))
  {
    S.IdentityBlock(S.Crossfeed(cfL, cfD), buf[..]);
  }

  /** The balance helper: sample `ch` of frame `i` is multiplied by (1 - s). */
  method Scale(buf: array<S.Frame>, i: nat, ch: nat, s: real)
    requires i < buf.Length && ch < 2
    modifies buf
    ensures S.Sample(buf[i], ch) == S.Sample(old(buf[i]), ch) * (1.0 - s)
    ensures S.Sample(buf[i], 1 - ch) == S.Sample(old(buf[i]), 1 - ch)
    ensures forall k | 0 <= k < buf.Length && k != i :: buf[k] == old(buf[k])
  {
    buf[i] := S.WithSample(buf[i], ch, S.Sample(buf[i], ch) * (1.0 - s));
  }

  /**
    Balance, as its loop body spells it out: zero changes nothing; a
    positive amount scales the LEFT channel (index 0) by (1 - bal); a
    negative amount is negated and scales the RIGHT channel (index 1) by
    (1 - |bal|).  The amount is not clamped.

    The function as written builds this loop as a lazy iterator adapter and
    discards it unconsumed, so as compiled it is the identity; that code is
    modelled by BalanceAsCompiled.  This method is the corrected version the
    dispatcher uses.
  */
  method Balance(buf: array<S.Frame>, bal: real)
    modifies buf
    ensures bal == 0.0 ==> buf[..] == old(buf[..])
    ensures bal > 0.0 ==> forall i | 0 <= i < buf.Length ::
              buf[i].l == old(buf[i].l) * (1.0 - bal) && buf[i].r == old(buf[i].r)
    ensures bal < 0.0 ==> forall i | 0 <= i < buf.Length ::
              buf[i].l == old(buf[i].l) && buf[i].r == old(buf[i].r) * (1.0 - -bal)
    ensures buf[..] == S.ApplyBlock(S.Balance(bal), old(buf[..]))
  {
    ghost var s := buf[..];
    var amount := bal;
    var idx := 0;
    if bal == 0.0 {
      S.IdentityBlock(S.Balance(bal), s);
      return;
    } else if bal < 0.0 {
      amount := bal * -1.0;
      idx := 1;
    }
    assert idx == S.BalanceChannel(bal);
    for i := 0 to buf.Length
      invariant forall k | 0 <= k < i :: buf[k] == S.ApplyFrame(S.Balance(bal), old(buf[k]))
      invariant forall k | i <= k < buf.Length :: buf[k] == old(buf[k])
    {
      Scale(buf, i, idx, amount);
      assert buf[i] == S.ApplyFrame(S.Balance(bal), old(buf[i]));
    }
    assert buf[..] == S.ApplyBlock(S.Balance(bal), s) by {
      S.ApplyBlockCharacterised(S.Balance(bal), s, buf[..]);
    }
  }

  /**
    Balance as the code is written: the amount and channel are chosen
    as in Balance, but the per-frame scaling is wrapped in a lazy iterator
    map that is bound to `_` and never consumed, so no frame is touched.
  */
  method BalanceAsCompiled(buf: array<S.Frame>, bal: real)
    modifies buf
    ensures buf[..] == old(buf[..])
  {
    var amount := bal;
    var idx := 0;
    if bal == 0.0 {
      return;
    } else if bal < 0.0 {
      amount := bal * -1.0;
      idx := 1;
    }
  }
}
