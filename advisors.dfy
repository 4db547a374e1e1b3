/**
 * What the aggregation loops see of one advisor (model) call, and the running
 * totals they fold those outcomes into. The HTTP request, prompt and JSON
 * parsing of each adapter are not modelled: an adapter's reply is the number
 * it parsed, or `None` when the request or the parsing threw.
 */
module Advisors {
  import opened Wrappers

  /** One model's contribution to an aggregation loop. */
  datatype Outcome =
    | Scored(score: real)  // the adapter returned a (clamped) score
    | Failed               // the adapter threw; the loop caught it and went on
    | Skipped              // the loop skipped the model (`continue`)

  function Min(a: real, b: real): real { if a <= b then a else b }

  function Max(a: real, b: real): real { if a >= b then a else b }

  /** `Math.max(-1, Math.min(1, x))`, applied by every adapter to the parsed score. */
  function Clamp(x: real): (r: real)
    ensures -1.0 <= r <= 1.0
    ensures r == x <==> -1.0 <= x <= 1.0
    ensures x > 1.0 ==> r == 1.0
    ensures x < -1.0 ==> r == -1.0
  {
    Max(-1.0, Min(1.0, x))
  }

  /** An adapter call: a thrown error becomes `Failed`, a parsed number is clamped into [-1, 1]. */
  function AdapterOutcome(reply: Option<real>): (o: Outcome)
    ensures o.Scored? <==> reply.Some?
    ensures o.Scored? ==> -1.0 <= o.score <= 1.0 && o.score == Clamp(reply.value)
    ensures !o.Skipped?
  {
    match reply
    case None => Failed
    case Some(x) => Scored(Clamp(x))
  }

  /** Only a score that is not exactly zero enters the totals (`if (sentimentScore !== 0)`). */
  predicate Counts(o: Outcome) {
    o.Scored? && o.score != 0.0
  }

  /** Every score an outcome sequence carries is in [-1, 1]. */
  predicate InRange(os: seq<Outcome>) {
    forall j :: 0 <= j < |os| && os[j].Scored? ==> -1.0 <= os[j].score <= 1.0
  }

  /** `totalScore` after folding `os` on the [-1, 1] scale. */
  function RawTotal(os: seq<Outcome>): real
    decreases |os|
  {
    if os == [] then 0.0
    else
      var last := os[|os| - 1];
      RawTotal(os[..|os| - 1]) + (if Counts(last) then last.score else 0.0)
  }

  /** `modelCount` after folding `os`. */
  function CountOf(os: seq<Outcome>): nat
    decreases |os|
  {
    if os == [] then 0
    else CountOf(os[..|os| - 1]) + (if Counts(os[|os| - 1]) then 1 else 0)
  }

  /** The 1-100 rescaling `((s + 1) / 2) * 99 + 1` of a [-1, 1] score. */
  function Scale(s: real): (r: real)
    ensures -1.0 <= s <= 1.0 ==> 1.0 <= r <= 100.0
    ensures s == -1.0 ==> r == 1.0
    ensures s == 1.0 ==> r == 100.0
  {
    ((s + 1.0) / 2.0) * 99.0 + 1.0
  }

  /** `totalScore` after folding `os` on the 1-100 scale. */
  function ScaledTotal(os: seq<Outcome>): real
    decreases |os|
  {
    if os == [] then 0.0
    else
      var last := os[|os| - 1];
      ScaledTotal(os[..|os| - 1]) + (if Counts(last) then Scale(last.score) else 0.0)
  }

  /** `modelCount > 0 ? totalScore / modelCount : 0` on the [-1, 1] scale. */
  function MeanScore(os: seq<Outcome>): real {
    if CountOf(os) > 0 then RawTotal(os) / CountOf(os) as real else 0.0
  }

  /** The totals of a concatenation are the sums of the totals of its parts. */
  lemma {:induction false} TotalsAppend(a: seq<Outcome>, b: seq<Outcome>)
    ensures RawTotal(a + b) == RawTotal(a) + RawTotal(b)
    ensures CountOf(a + b) == CountOf(a) + CountOf(b)
    ensures ScaledTotal(a + b) == ScaledTotal(a) + ScaledTotal(b)
    decreases |b|
  {
    if b == [] {
      assert a + b == a;
    } else {
      var b' := b[..|b| - 1];
      assert (a + b)[..|a + b| - 1] == a + b';
      assert (a + b)[|a + b| - 1] == b[|b| - 1];
      TotalsAppend(a, b');
    }
  }

  /** A failed, skipped or zero outcome anywhere in the sequence changes neither total nor count. */
  lemma IgnoredOutcome(a: seq<Outcome>, o: Outcome, b: seq<Outcome>)
    requires !Counts(o)
    ensures RawTotal(a + [o] + b) == RawTotal(a + b)
    ensures CountOf(a + [o] + b) == CountOf(a + b)
    ensures ScaledTotal(a + [o] + b) == ScaledTotal(a + b)
  {
    TotalsAppend(a, [o]);
    TotalsAppend(a + [o], b);
    TotalsAppend(a, b);
    assert [o][..0] == [];
  }

  /**
   * The totals depend only on the multiset of outcomes, not on the order the
   * models were asked in (or answered in).
   */
  lemma {:induction false} TotalsPermutation(a: seq<Outcome>, b: seq<Outcome>)
    requires multiset(a) == multiset(b)
    ensures RawTotal(a) == RawTotal(b)
    ensures CountOf(a) == CountOf(b)
    ensures ScaledTotal(a) == ScaledTotal(b)
    decreases |a|
  {
    if a == [] {
      assert |b| == |multiset(b)| == 0;
    } else {
      var x := a[|a| - 1];
      var a' := a[..|a| - 1];
      assert a == a' + [x];
      assert x in multiset(b);
      var k :| 0 <= k < |b| && b[k] == x;
      var b' := b[..k] + b[k + 1..];
      assert b == b[..k] + [x] + b[k + 1..];
      calc {
        multiset(a') + multiset{x};
        multiset(a);
        multiset(b);
        multiset(b[..k] + [x] + b[k + 1..]);
        multiset(b[..k]) + multiset{x} + multiset(b[k + 1..]);
        multiset(b') + multiset{x};
      }
      assert multiset(a') == multiset(a') + multiset{x} - multiset{x};
      assert multiset(b') == multiset(b') + multiset{x} - multiset{x};
      TotalsPermutation(a', b');
      TotalsAppend(b[..k], [x]);
      TotalsAppend(b[..k] + [x], b[k + 1..]);
      TotalsAppend(b[..k], b[k + 1..]);
      TotalsAppend(a', [x]);
      assert [x][..0] == [];
    }
  }

  /** The 1-100 total is an affine image of the raw total: each counted score s adds 49.5 * s + 50.5. */
  lemma {:induction false} ScaledTotalAffine(os: seq<Outcome>)
    ensures ScaledTotal(os) == 49.5 * RawTotal(os) + 50.5 * (CountOf(os) as real)
    decreases |os|
  {
    if os != [] {
      ScaledTotalAffine(os[..|os| - 1]);
    }
  }

  /** With every score in [-1, 1], the raw total lies within plus or minus the count. */
  lemma {:induction false} RawTotalBounded(os: seq<Outcome>)
    requires InRange(os)
    ensures -(CountOf(os) as real) <= RawTotal(os) <= CountOf(os) as real
    decreases |os|
  {
    if os != [] {
      var os' := os[..|os| - 1];
      assert InRange(os') by {
        forall j | 0 <= j < |os'| && os'[j].Scored? ensures -1.0 <= os'[j].score <= 1.0 {
          assert os'[j] == os[j];
        }
      }
      RawTotalBounded(os');
    }
  }

  /** The mean of clamped scores is itself in [-1, 1]; with no counted score it is 0. */
  lemma MeanScoreBounded(os: seq<Outcome>)
    requires InRange(os)
    ensures -1.0 <= MeanScore(os) <= 1.0
    ensures CountOf(os) == 0 ==> MeanScore(os) == 0.0
  {
    if CountOf(os) > 0 {
      RawTotalBounded(os);
      var n := CountOf(os) as real;
      var m := RawTotal(os) / n;
      assert m * n == RawTotal(os);
    }
  }

  /** Reordering the outcomes never changes the mean. */
  lemma MeanScorePermutation(a: seq<Outcome>, b: seq<Outcome>)
    requires multiset(a) == multiset(b)
    ensures MeanScore(a) == MeanScore(b)
  {
    TotalsPermutation(a, b);
  }

  /** A product of two positive reals is positive. */
  lemma MulPositive(a: real, b: real)
    requires a > 0.0 && b > 0.0
    ensures a * b > 0.0
  {
  }
}
