/**
 * Sample-level statistics shared by the self-test and the recording callbacks
 * in src/main.cpp: absolute value, the running maximum, the peak of a batch
 * and the in-order concatenation of delivered batches.
 *
 * Samples are single-precision floats in the source. Taking an absolute value
 * and comparing two floats are exact operations, so the peak computed on
 * `real` is the peak computed on floats (NaN is not modelled).
 */
module Samples {

  /** std::abs on a sample. */
  function Abs(x: real): (a: real)
    ensures 0.0 <= a
    ensures a == x || a == -x
  {
    if x < 0.0 then -x else x
  }

  /** std::max(a, b), which returns `(a < b) ? b : a`. */
  function Max(a: real, b: real): (m: real)
    ensures a <= m && b <= m
    ensures m == a || m == b
  {
    if a < b then b else a
  }

  /**
   * The largest absolute value in `s`; 0 for an empty sequence, which is the
   * value every peak accumulator in the source starts from.
   */
  function Peak(s: seq<real>): (m: real)
    ensures 0.0 <= m
  {
    if s == [] then 0.0 else Max(Peak(s[..|s| - 1]), Abs(s[|s| - 1]))
  }

  /**
   * Peak is the maximum: it bounds every |sample| and, for a non-empty
   * sequence, is attained by one of them.
   */
  lemma {:induction false} PeakIsMaximum(s: seq<real>)
    ensures forall i :: 0 <= i < |s| ==> Abs(s[i]) <= Peak(s)
    ensures s != [] ==> exists i :: 0 <= i < |s| && Abs(s[i]) == Peak(s)
  {
    if s != [] {
      var init := s[..|s| - 1];
      PeakIsMaximum(init);
      assert forall i :: 0 <= i < |init| ==> s[i] == init[i];
      if init == [] || Peak(init) < Abs(s[|s| - 1]) {
        assert Abs(s[|s| - 1]) == Peak(s);
      } else {
        var j :| 0 <= j < |init| && Abs(init[j]) == Peak(init);
        assert Abs(s[j]) == Peak(s);
      }
    }
  }

  /** The peak of a concatenation is the larger of the two peaks. */
  lemma {:induction false} PeakConcat(a: seq<real>, b: seq<real>)
    ensures Peak(a + b) == Max(Peak(a), Peak(b))
  {
    if b == [] {
      assert a + b == a;
    } else {
      var b' := b[..|b| - 1];
      assert (a + b)[..|a + b| - 1] == a + b';
      assert (a + b)[|a + b| - 1] == b[|b| - 1];
      PeakConcat(a, b');
    }
  }

  /**
   * The per-batch loop of both callbacks (src/main.cpp:45-48 and 130-135):
   * `localMax` starts at 0 and takes the std::max with each |data[i]|.
   */
  method BatchPeak(batch: seq<real>) returns (localMax: real)
    ensures localMax == Peak(batch)
  {
    localMax := 0.0;
    var i := 0;
    while i < |batch|
      invariant 0 <= i <= |batch|
      invariant localMax == Peak(batch[..i])
    {
      assert batch[..i + 1][..i] == batch[..i];
      localMax := Max(localMax, Abs(batch[i]));
      i := i + 1;
    }
    assert batch[..i] == batch;
  }

  /**
   * The batches of `bs` appended one after another, in delivery order. A
   * single batch is taken as it is, and batches without samples add nothing.
   */
  function Flatten(bs: seq<seq<real>>): (s: seq<real>)
    ensures |bs| == 1 ==> s == bs[0]
    ensures (forall i :: 0 <= i < |bs| ==> bs[i] == []) ==> s == []
  {
    if bs == [] then [] else Flatten(bs[..|bs| - 1]) + bs[|bs| - 1]
  }

  /**
   * The sum of the frame counts of `bs`: a single batch counts its length,
   * and the latest batch is always counted in full.
   */
  function FrameCount(bs: seq<seq<real>>): (n: nat)
    ensures |bs| == 1 ==> n == |bs[0]|
    ensures bs != [] ==> |bs[|bs| - 1]| <= n
  {
    if bs == [] then 0 else FrameCount(bs[..|bs| - 1]) + |bs[|bs| - 1]|
  }

  /** Appending one more batch appends exactly its samples. */
  lemma FlattenSnoc(bs: seq<seq<real>>, b: seq<real>)
    ensures Flatten(bs + [b]) == Flatten(bs) + b
    ensures FrameCount(bs + [b]) == FrameCount(bs) + |b|
  {
    assert (bs + [b])[..|bs|] == bs;
  }

  /**
   * One more delivery while every earlier one was appended: the appended
   * prefix grows by exactly that batch.
   */
  lemma AppendActive(bs: seq<seq<real>>, b: seq<real>)
    ensures Flatten((bs + [b])[..|bs| + 1]) == Flatten(bs) + b
  {
    assert (bs + [b])[..|bs| + 1] == bs + [b];
    FlattenSnoc(bs, b);
  }

  /** A delivery after appending stopped leaves the appended prefix alone. */
  lemma AppendInactive(bs: seq<seq<real>>, b: seq<real>, k: nat)
    requires k <= |bs|
    ensures Flatten((bs + [b])[..k]) == Flatten(bs[..k])
  {
    assert (bs + [b])[..k] == bs[..k];
  }

  /**
   * One more delivery, with the first `k` deliveries appended so far: while
   * appending, the appended samples grow by exactly the batch; otherwise they
   * stay as they are. Either way they stay within the frames delivered.
   */
  lemma DeliveryStep(history: seq<seq<real>>, k: nat, batch: seq<real>, appending: bool)
    requires k <= |history|
    requires appending ==> k == |history|
    ensures FrameCount(history + [batch]) == FrameCount(history) + |batch|
    ensures appending ==> Flatten((history + [batch])[..k + 1]) == Flatten(history[..k]) + batch
    ensures !appending ==> Flatten((history + [batch])[..k]) == Flatten(history[..k])
    ensures |Flatten((history + [batch])[..if appending then k + 1 else k])| <= FrameCount(history + [batch])
  {
    FlattenSnoc(history, batch);
    if appending {
      assert history[..k] == history;
      AppendActive(history, batch);
      PrefixWithinFrames(history + [batch], k + 1);
    } else {
      AppendInactive(history, batch, k);
      PrefixWithinFrames(history + [batch], k);
    }
  }

  /** No sample is lost or duplicated: the flattened length is the frame count. */
  lemma {:induction false} FlattenLength(bs: seq<seq<real>>)
    ensures |Flatten(bs)| == FrameCount(bs)
  {
    if bs != [] {
      FlattenLength(bs[..|bs| - 1]);
    }
  }

  /** The samples appended from a prefix of the deliveries never exceed all frames delivered. */
  lemma PrefixWithinFrames(bs: seq<seq<real>>, k: nat)
    requires k <= |bs|
    ensures |Flatten(bs[..k])| <= FrameCount(bs)
  {
    FlattenLength(bs[..k]);
    FrameCountPrefix(bs, k);
  }

  /** Frames of a prefix of the deliveries never exceed the frames of all of them. */
  lemma {:induction false} FrameCountPrefix(bs: seq<seq<real>>, k: nat)
    requires k <= |bs|
    ensures FrameCount(bs[..k]) <= FrameCount(bs)
  {
    if k < |bs| {
      assert bs[..|bs| - 1][..k] == bs[..k];
      FrameCountPrefix(bs[..|bs| - 1], k);
    } else {
      assert bs[..k] == bs;
    }
  }
}
