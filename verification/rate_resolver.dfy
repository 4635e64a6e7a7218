/**
 * The output-data-rate search of `setSamplingRate`.  The rate of a channel
 * is fS / (R1 * R2 * R3) with fS = 102400 Hz.  The driver tries R1 in
 * [4, 2], R2 in [4, 5, 6, 8] and R3 in [4, 6, 8, 12, 16, 32, 64, 128], in
 * that order.  It keeps a triple only when its error |rate - target| is
 * strictly smaller than the best so far, and it stops as soon as the error
 * is zero.  The chosen factors then become register bytes.  Rates and
 * errors are exact real numbers here.
 */
module RateResolver {
  import opened Bits
  import opened RegisterMap

  /** A decimation factor. */
  type Factor = x: nat | x > 0 witness 1

  /** The modulator clock fS assumed by the driver, in Hz. */
  const FS: real := 102400.0

  /** The error the search starts from (`1e9f`). */
  const INITIAL_ERR: real := 1000000000.0

  const R1_CANDIDATES: seq<Factor> := [4, 2]
  const R2_CANDIDATES: seq<Factor> := [4, 5, 6, 8]
  const R3_CANDIDATES: seq<Factor> := [4, 6, 8, 12, 16, 32, 64, 128]

  /** Decimation factors for the three filter stages. */
  datatype Triple = Triple(r1: Factor, r2: Factor, r3: Factor)

  lemma MulPositive(a: int, b: int)
    requires a >= 1 && b >= 1
    ensures a * b >= 1 && a * b >= a && a * b >= b
  {
  }

  function Product(t: Triple): (p: int)
    ensures p >= 1
  {
    MulPositive(t.r1, t.r2);
    MulPositive(t.r1 * t.r2, t.r3);
    t.r1 * t.r2 * t.r3
  }

  /** The output data rate of a triple, in Hz. */
  function Odr(t: Triple): real
  {
    FS / Product(t) as real
  }

  function Abs(x: real): real
  {
    if x < 0.0 then -x else x
  }

  /** `fabsf(odr - targetHz)`, in exact arithmetic. */
  function Err(t: Triple, target: real): real
  {
    Abs(Odr(t) - target)
  }

  /** The search's running choice and its error. */
  datatype Best = Best(t: Triple, err: real)

  /** The choice before any triple is tried: (4, 4, 64) with error 1e9. */
  const INITIAL := Best(Triple(4, 4, 64), INITIAL_ERR)

  /** One step of the search: only a strictly smaller error replaces the choice. */
  function Consider(b: Best, c: Triple, target: real): Best
  {
    if Err(c, target) < b.err then Best(c, Err(c, target)) else b
  }

  /** The triple the loops try at indices (i, j, k). */
  function At(i: nat, j: nat, k: nat): Triple
    requires i < 2 && j < 4 && k < 8
  {
    Triple(R1_CANDIDATES[i], R2_CANDIDATES[j], R3_CANDIDATES[k])
  }

  /*
   * The full search, without early exit, in the shape of the three loops:
   * Scan3 runs the innermost loop over its first k values, Scan2 the middle
   * loop over its first j values and Scan1 the outer loop over its first i.
   */

  function Scan3(b: Best, i: nat, j: nat, k: nat, target: real): Best
    requires i < 2 && j < 4 && k <= 8
  {
    if k == 0 then b else Consider(Scan3(b, i, j, k - 1, target), At(i, j, k - 1), target)
  }

  function Scan2(b: Best, i: nat, j: nat, target: real): Best
    requires i < 2 && j <= 4
  {
    if j == 0 then b else Scan3(Scan2(b, i, j - 1, target), i, j - 1, 8, target)
  }

  function Scan1(i: nat, target: real): Best
    requires i <= 2
  {
    if i == 0 then INITIAL else Scan2(Scan1(i - 1, target), i - 1, 4, target)
  }

  /*
   * Errors are never negative, so once the running error is zero no later
   * triple replaces the choice.  These lemmas let the loops stop early.
   */

  lemma {:induction false} Settled3(b: Best, i: nat, j: nat, k: nat, target: real)
    requires i < 2 && j < 4 && k <= 8 && b.err == 0.0
    ensures Scan3(b, i, j, k, target) == b
  {
    if k > 0 {
      Settled3(b, i, j, k - 1, target);
    }
  }

  lemma {:induction false} Settled2(b: Best, i: nat, j: nat, target: real)
    requires i < 2 && j <= 4 && b.err == 0.0
    ensures Scan2(b, i, j, target) == b
  {
    if j > 0 {
      Settled2(b, i, j - 1, target);
      Settled3(b, i, j - 1, 8, target);
    }
  }

  lemma {:induction false} Settled1(i: nat, i': nat, target: real)
    requires i <= i' <= 2 && Scan1(i, target).err == 0.0
    ensures Scan1(i', target) == Scan1(i, target)
    decreases i'
  {
    if i' > i {
      Settled1(i, i' - 1, target);
      Settled2(Scan1(i, target), i' - 1, 4, target);
    }
  }

  lemma {:induction false} Settled3From(b: Best, i: nat, j: nat, k: nat, k': nat, target: real)
    requires i < 2 && j < 4 && k <= k' <= 8 && Scan3(b, i, j, k, target).err == 0.0
    ensures Scan3(b, i, j, k', target) == Scan3(b, i, j, k, target)
    decreases k'
  {
    if k' > k {
      Settled3From(b, i, j, k, k' - 1, target);
    }
  }

  lemma {:induction false} Settled2From(b: Best, i: nat, j: nat, j': nat, target: real)
    requires i < 2 && j <= j' <= 4 && Scan2(b, i, j, target).err == 0.0
    ensures Scan2(b, i, j', target) == Scan2(b, i, j, target)
    decreases j'
  {
    if j' > j {
      Settled2From(b, i, j, j' - 1, target);
      Settled3(Scan2(b, i, j, target), i, j' - 1, 8, target);
    }
  }

  /** A zero error met at (i, j, k) settles the whole search. */
  lemma SettledAt(b1: Best, b2: Best, i: nat, j: nat, k: nat, target: real)
    requires i < 2 && j < 4 && k <= 8
    requires b1 == Scan1(i, target) && b2 == Scan2(b1, i, j, target)
    requires Scan3(b2, i, j, k, target).err == 0.0
    ensures Scan1(2, target) == Scan3(b2, i, j, k, target)
  {
    Settled3From(b2, i, j, k, 8, target);
    Settled2From(b1, i, j + 1, 4, target);
    Settled1(i + 1, 2, target);
  }

  /**
   * The loops of `setSamplingRate`: the same order, the same strict
   * comparison and the same breaks on a zero error.  Stopping early never
   * changes the outcome: the result is the choice of the full search.
   */
  method Resolve(target: real) returns (r1: Factor, r2: Factor, r3: Factor)
    ensures Triple(r1, r2, r3) == Scan1(2, target).t
  {
    var bestErr := INITIAL_ERR;
    r1, r2, r3 := 4, 4, 64;
    var i := 0;
    while i < |R1_CANDIDATES|
      invariant 0 <= i <= 2
      invariant Best(Triple(r1, r2, r3), bestErr) == Scan1(i, target)
      invariant bestErr > 0.0
    {
      ghost var b1 := Scan1(i, target);
      var j := 0;
      while j < |R2_CANDIDATES|
        invariant 0 <= j <= 4
        invariant Best(Triple(r1, r2, r3), bestErr) == Scan2(b1, i, j, target)
        invariant bestErr > 0.0
      {
        ghost var b2 := Scan2(b1, i, j, target);
        var k := 0;
        while k < |R3_CANDIDATES|
          invariant 0 <= k <= 8
          invariant Best(Triple(r1, r2, r3), bestErr) == Scan3(b2, i, j, k, target)
          invariant bestErr > 0.0
        {
          var c := Triple(R1_CANDIDATES[i], R2_CANDIDATES[j], R3_CANDIDATES[k]);
          assert c == At(i, j, k);
          var err := Abs(Odr(c) - target);
          assert Scan3(b2, i, j, k + 1, target) == Consider(Scan3(b2, i, j, k, target), c, target);
          if err < bestErr {
            bestErr := err;
            r1, r2, r3 := c.r1, c.r2, c.r3;
          }
          k := k + 1;
          if err == 0.0 {
            SettledAt(b1, b2, i, j, k, target);
            break;
          }
        }
        if bestErr == 0.0 {
          break;
        }
        j := j + 1;
      }
      if bestErr == 0.0 {
        break;
      }
      i := i + 1;
    }
  }

  /*
   * A reference definition: the 64 triples as one list in loop order, and
   * the property the search promises -- the first triple of least error.
   */

  function Row3(i: nat, j: nat, k: nat): (r: seq<Triple>)
    requires i < 2 && j < 4 && k <= 8
    ensures |r| == k
  {
    if k == 0 then [] else Row3(i, j, k - 1) + [At(i, j, k - 1)]
  }

  function Row2(i: nat, j: nat): (r: seq<Triple>)
    requires i < 2 && j <= 4
    ensures |r| == 8 * j
  {
    if j == 0 then [] else Row2(i, j - 1) + Row3(i, j - 1, 8)
  }

  function Row1(i: nat): (r: seq<Triple>)
    requires i <= 2
    ensures |r| == 32 * i
  {
    if i == 0 then [] else Row1(i - 1) + Row2(i - 1, 4)
  }

  /** Every triple the search tries, in the order it tries them. */
  function Candidates(): seq<Triple>
  {
    Row1(|R1_CANDIDATES|)
  }

  /** The search run over a list from a given start. */
  function Fold(b: Best, xs: seq<Triple>, target: real): Best
  {
    if xs == [] then b else Consider(Fold(b, xs[..|xs| - 1], target), xs[|xs| - 1], target)
  }

  /** The triple the full search, without early exit, settles on. */
  function Resolved(target: real): Triple
  {
    Fold(INITIAL, Candidates(), target).t
  }

  /** Position p holds a triple of least error, and every earlier one is strictly worse. */
  ghost predicate IsFirstMinimum(xs: seq<Triple>, p: int, target: real)
  {
    0 <= p < |xs| &&
    (forall q :: 0 <= q < |xs| ==> Err(xs[p], target) <= Err(xs[q], target)) &&
    (forall q :: 0 <= q < p ==> Err(xs[p], target) < Err(xs[q], target))
  }

  /** At most one position is the first minimum. */
  lemma FirstMinimumUnique(xs: seq<Triple>, p: int, p': int, target: real)
    requires IsFirstMinimum(xs, p, target) && IsFirstMinimum(xs, p', target)
    ensures p == p'
  {
    assert Err(xs[p], target) <= Err(xs[p'], target);
    assert Err(xs[p'], target) <= Err(xs[p], target);
  }

  lemma {:induction false} FoldAppend(b: Best, xs: seq<Triple>, ys: seq<Triple>, target: real)
    ensures Fold(b, xs + ys, target) == Fold(Fold(b, xs, target), ys, target)
    decreases |ys|
  {
    if ys != [] {
      var ys' := ys[..|ys| - 1];
      assert (xs + ys)[..|xs + ys| - 1] == xs + ys';
      FoldAppend(b, xs, ys', target);
    } else {
      assert xs + ys == xs;
    }
  }

  lemma {:induction false} Scan3IsFold(b: Best, i: nat, j: nat, k: nat, target: real)
    requires i < 2 && j < 4 && k <= 8
    ensures Scan3(b, i, j, k, target) == Fold(b, Row3(i, j, k), target)
  {
    if k > 0 {
      Scan3IsFold(b, i, j, k - 1, target);
      assert Row3(i, j, k)[..k - 1] == Row3(i, j, k - 1);
    }
  }

  lemma {:induction false} Scan2IsFold(b: Best, i: nat, j: nat, target: real)
    requires i < 2 && j <= 4
    ensures Scan2(b, i, j, target) == Fold(b, Row2(i, j), target)
  {
    if j > 0 {
      Scan2IsFold(b, i, j - 1, target);
      Scan3IsFold(Scan2(b, i, j - 1, target), i, j - 1, 8, target);
      FoldAppend(b, Row2(i, j - 1), Row3(i, j - 1, 8), target);
    }
  }

  lemma {:induction false} Scan1IsFold(i: nat, target: real)
    requires i <= 2
    ensures Scan1(i, target) == Fold(INITIAL, Row1(i), target)
  {
    if i > 0 {
      Scan1IsFold(i - 1, target);
      Scan2IsFold(Scan1(i - 1, target), i - 1, 4, target);
      FoldAppend(INITIAL, Row1(i - 1), Row2(i - 1, 4), target);
    }
  }

  /**
   * The search over any list either keeps its start, when no triple beats
   * the starting error, or ends on the first triple of least error.
   */
  lemma {:induction false} FoldFirstMinimum(b: Best, xs: seq<Triple>, target: real) returns (p: int)
    ensures p == -1 ==> Fold(b, xs, target) == b &&
                        forall q :: 0 <= q < |xs| ==> b.err <= Err(xs[q], target)
    ensures p != -1 ==> IsFirstMinimum(xs, p, target) && Err(xs[p], target) < b.err &&
                        Fold(b, xs, target) == Best(xs[p], Err(xs[p], target))
    decreases |xs|
  {
    if xs == [] {
      return -1;
    }
    var n := |xs| - 1;
    var ys, x := xs[..n], xs[n];
    assert forall q :: 0 <= q < n ==> xs[q] == ys[q];
    var p' := FoldFirstMinimum(b, ys, target);
    var e := Err(x, target);
    if p' == -1 {
      p := if e < b.err then n else -1;
    } else if e < Err(ys[p'], target) {
      p := n;
    } else {
      p := p';
    }
  }

  /** Every rate lies in (0, fS]. */
  lemma OdrBounds(t: Triple)
    ensures 0.0 < Odr(t) <= FS
  {
    var p := Product(t) as real;
    assert FS / p <= FS by {
      assert FS <= FS * p;
    }
  }

  /** For a target in [0, 1e9) every triple beats the starting error. */
  lemma ErrBelowInitial(t: Triple, target: real)
    requires 0.0 <= target < INITIAL_ERR
    ensures Err(t, target) < INITIAL_ERR
  {
    OdrBounds(t);
  }

  /**
   * For any sensible target the search chooses the first triple, in loop
   * order, whose rate is nearest to the target.
   */
  lemma ResolvedIsFirstMinimum(target: real) returns (p: int)
    requires 0.0 <= target < INITIAL_ERR
    ensures IsFirstMinimum(Candidates(), p, target)
    ensures Resolved(target) == Candidates()[p]
  {
    p := FoldFirstMinimum(INITIAL, Candidates(), target);
    if p == -1 {
      ErrBelowInitial(Candidates()[0], target);
      assert false;
    }
  }

  /**
   * What `setSamplingRate` programs -- the search with its early exits, as
   * `Resolve` computes it -- is the first triple, in loop order, of least
   * error.
   */
  lemma SearchIsFirstMinimum(target: real) returns (p: int)
    requires 0.0 <= target < INITIAL_ERR
    ensures IsFirstMinimum(Candidates(), p, target)
    ensures Scan1(2, target).t == Candidates()[p]
  {
    p := ResolvedIsFirstMinimum(target);
    Scan1IsFold(2, target);
  }

  /** The search with early exits settles on the same triple as the full fold. */
  lemma SearchIsResolved(target: real)
    ensures Scan1(2, target).t == Resolved(target)
  {
    Scan1IsFold(2, target);
  }

  /** The search settles on one of the candidate triples. */
  lemma SearchTried(target: real)
    requires 0.0 <= target < INITIAL_ERR
    ensures Tried(Scan1(2, target).t)
  {
    var p := SearchIsFirstMinimum(target);
    CandidatesTried();
    assert Candidates()[p] in Candidates();
  }

  /** Position 32i + 8j + k of the list holds the triple tried at (i, j, k). */
  lemma {:induction false} Row3At(i: nat, j: nat, k: nat, k': nat)
    requires i < 2 && j < 4 && k' < k <= 8
    ensures Row3(i, j, k)[k'] == At(i, j, k')
  {
    if k' < k - 1 {
      Row3At(i, j, k - 1, k');
    }
  }

  lemma {:induction false} Row2At(i: nat, j: nat, j': nat, k: nat)
    requires i < 2 && j' < j <= 4 && k < 8
    ensures Row2(i, j)[8 * j' + k] == At(i, j', k)
  {
    if j' < j - 1 {
      Row2At(i, j - 1, j', k);
    } else {
      Row3At(i, j', 8, k);
    }
  }

  lemma {:induction false} Row1At(i: nat, i': nat, j: nat, k: nat)
    requires i' < i <= 2 && j < 4 && k < 8
    ensures Row1(i)[32 * i' + 8 * j + k] == At(i', j, k)
  {
    var n := 32 * i' + 8 * j + k;
    assert Row1(i) == Row1(i - 1) + Row2(i - 1, 4);
    if i' < i - 1 {
      Row1At(i - 1, i', j, k);
      assert Row1(i)[n] == Row1(i - 1)[n];
    } else {
      Row2At(i', 4, j, k);
      assert Row1(i)[n] == Row2(i', 4)[8 * j + k];
    }
  }

  lemma CandidateAt(i: nat, j: nat, k: nat)
    requires i < 2 && j < 4 && k < 8
    ensures Candidates()[32 * i + 8 * j + k] == At(i, j, k)
  {
    Row1At(2, i, j, k);
  }

  /** SPS_1600: the first triple, (4, 4, 4), already hits 1600 Hz exactly. */
  lemma Resolve1600()
    ensures Resolved(1600.0) == Triple(4, 4, 4)
  {
    var target := 1600.0;
    assert Product(At(0, 0, 0)) == 64;
    assert Scan3(INITIAL, 0, 0, 1, target) == Best(Triple(4, 4, 4), 0.0);
    Settled3From(INITIAL, 0, 0, 1, 8, target);
    Settled2From(Scan1(0, target), 0, 1, 4, target);
    Settled1(1, 2, target);
    Scan1IsFold(2, target);
  }

  /** A triple made of one candidate per stage. */
  predicate Tried(t: Triple)
  {
    t.r1 in R1_CANDIDATES && t.r2 in R2_CANDIDATES && t.r3 in R3_CANDIDATES
  }

  /** Every triple tried has a product of at least 32, and only (2, 4, 4) has 32. */
  lemma SmallestProduct(t: Triple)
    requires Tried(t)
    ensures Product(t) >= 32
    ensures Product(t) == 32 <==> t == Triple(2, 4, 4)
  {
    assert t.r1 >= 2 && t.r2 >= 4 && t.r3 >= 4;
    assert t.r1 * t.r2 >= 8;
    assert t.r1 * t.r2 * t.r3 >= 8 * t.r3;
  }

  /** A larger product means a strictly slower rate. */
  lemma OdrMonotone(t: Triple, u: Triple)
    requires Product(t) < Product(u)
    ensures Odr(u) < Odr(t)
  {
    var p, q := Product(t) as real, Product(u) as real;
    assert Odr(t) * p == FS && Odr(u) * q == FS;
    assert Odr(u) * p < FS;
  }

  lemma OdrFastest()
    ensures Odr(Triple(2, 4, 4)) == 3200.0
  {
    assert Product(Triple(2, 4, 4)) == 32;
  }

  /** Every triple of the list is made of candidates. */
  lemma {:induction false} Row3Tried(i: nat, j: nat, k: nat)
    requires i < 2 && j < 4 && k <= 8
    ensures forall t :: t in Row3(i, j, k) ==> Tried(t)
  {
    if k > 0 {
      Row3Tried(i, j, k - 1);
    }
  }

  lemma {:induction false} Row2Tried(i: nat, j: nat)
    requires i < 2 && j <= 4
    ensures forall t :: t in Row2(i, j) ==> Tried(t)
  {
    if j > 0 {
      Row2Tried(i, j - 1);
      Row3Tried(i, j - 1, 8);
    }
  }

  lemma {:induction false} Row1Tried(i: nat)
    requires i <= 2
    ensures forall t :: t in Row1(i) ==> Tried(t)
  {
    if i > 0 {
      Row1Tried(i - 1);
      Row2Tried(i - 1, 4);
    }
  }

  /** Above 3200 Hz the fastest triple is strictly nearer than any other. */
  lemma FastestWins(t: Triple, target: real)
    requires Tried(t) && t != Triple(2, 4, 4) && 3200.0 <= target
    ensures Err(Triple(2, 4, 4), target) < Err(t, target)
  {
    var fastest := Triple(2, 4, 4);
    SmallestProduct(t);
    assert Product(fastest) < Product(t);
    OdrMonotone(fastest, t);
    OdrFastest();
  }

  /** A search over triples other than (2, 4, 4) ends above its error. */
  lemma {:induction false} FoldAboveFastest(b: Best, xs: seq<Triple>, target: real)
    requires 3200.0 <= target && Err(Triple(2, 4, 4), target) < b.err
    requires forall t :: t in xs ==> Tried(t) && t != Triple(2, 4, 4)
    ensures Err(Triple(2, 4, 4), target) < Fold(b, xs, target).err
    decreases |xs|
  {
    if xs != [] {
      var n := |xs| - 1;
      assert xs[n] in xs;
      assert forall t :: t in xs[..n] ==> t in xs;
      FoldAboveFastest(b, xs[..n], target);
      FastestWins(xs[n], target);
    }
  }

  /** Above 3200 Hz a search that meets (2, 4, 4) ends on it. */
  lemma {:induction false} FoldFindsFastest(b: Best, xs: seq<Triple>, target: real)
    requires 3200.0 <= target && Err(Triple(2, 4, 4), target) < b.err
    requires forall t :: t in xs ==> Tried(t)
    requires Triple(2, 4, 4) in xs
    ensures Fold(b, xs, target).t == Triple(2, 4, 4)
    ensures Fold(b, xs, target).err == Err(Triple(2, 4, 4), target)
    decreases |xs|
  {
    var fastest := Triple(2, 4, 4);
    var n := |xs| - 1;
    var ys := xs[..n];
    assert xs == ys + [xs[n]];
    assert forall t :: t in ys ==> t in xs;
    if fastest in ys {
      FoldFindsFastest(b, ys, target);
      if xs[n] != fastest {
        FastestWins(xs[n], target);
      }
    } else {
      FoldAboveFastest(b, ys, target);
    }
  }

  /**
   * The presets above 3200 SPS (6400, 12800, 25600) are out of reach: for
   * any target of at least 3200 Hz the search picks (2, 4, 4), 3200 Hz,
   * the fastest triple.
   */
  lemma FastPresetsCollapse(target: real)
    requires 3200.0 <= target < INITIAL_ERR
    ensures Resolved(target) == Triple(2, 4, 4)
  {
    CandidatesTried();
    ErrBelowInitial(Triple(2, 4, 4), target);
    FoldFindsFastest(INITIAL, Candidates(), target);
  }

  /** The list is made of candidates, and (2, 4, 4) is among them. */
  lemma CandidatesTried()
    ensures forall t :: t in Candidates() ==> Tried(t)
    ensures Triple(2, 4, 4) in Candidates()
  {
    Row1Tried(2);
    CandidateAt(1, 0, 0);
    assert At(1, 0, 0) == Triple(2, 4, 4);
    assert Candidates()[32] in Candidates();
  }

  /**
   * `bestR1 == 2 ? 0x07 : 0x00`: bits 0..2 of R1_RATE select double pace
   * for channels 1..3, so all three are set for R1 = 2 and none for R1 = 4.
   */
  function R1Reg(r1: Factor): (b: Byte)
    ensures forall k: nat :: k < 8 ==> Bit(b, k) == (if k < 3 && r1 == 2 then 1 else 0)
  {
    if r1 == 2 then
      assert Pow2(3) == 8;
      LowOnesBits(0x07, 3);
      0x07
    else
      ZeroBits();
      0x00
  }

  /** The `r2Code` lambda: bit j is set exactly for the j-th R2 candidate, and no bit for other values. */
  function R2Code(v: Factor): (c: Byte)
    ensures forall k: nat :: k < 8 ==> Bit(c, k) == (if k < 4 && v == R2_CANDIDATES[k] then 1 else 0)
  {
    assert Pow2(1) == 2 && Pow2(2) == 4 && Pow2(3) == 8;
    match v
    case 4 => OneHotBits(0); 0x01
    case 5 => OneHotBits(1); 0x02
    case 6 => OneHotBits(2); 0x04
    case 8 => OneHotBits(3); 0x08
    case _ => ZeroBits(); 0x00
  }

  /** The `r3Code` lambda: bit k is set exactly for the k-th R3 candidate, and no bit for other values. */
  function R3Code(v: Factor): (c: Byte)
    ensures forall k: nat :: k < 8 ==> Bit(c, k) == (if v == R3_CANDIDATES[k] then 1 else 0)
  {
    assert Pow2(1) == 2 && Pow2(2) == 4 && Pow2(3) == 8 && Pow2(4) == 0x10 && Pow2(5) == 0x20;
    assert Pow2(6) == 0x40 && Pow2(7) == 0x80;
    match v
    case 4 => OneHotBits(0); 0x01
    case 6 => OneHotBits(1); 0x02
    case 8 => OneHotBits(2); 0x04
    case 12 => OneHotBits(3); 0x08
    case 16 => OneHotBits(4); 0x10
    case 32 => OneHotBits(5); 0x20
    case 64 => OneHotBits(6); 0x40
    case 128 => OneHotBits(7); 0x80
    case _ => ZeroBits(); 0x00
  }

  /** The j-th R2 candidate is coded by bit j, and only the candidates have a code. */
  lemma R2CodeOneHot(j: nat, v: Factor)
    requires j < 4
    ensures R2Code(R2_CANDIDATES[j]) == Pow2(j)
    ensures R2Code(v) != 0 <==> v in R2_CANDIDATES
  {
    assert Pow2(1) == 2 && Pow2(2) == 4 && Pow2(3) == 8;
  }

  /** The k-th R3 candidate is coded by bit k, and only the candidates have a code. */
  lemma R3CodeOneHot(k: nat, v: Factor)
    requires k < 8
    ensures R3Code(R3_CANDIDATES[k]) == Pow2(k)
    ensures R3Code(v) != 0 <==> v in R3_CANDIDATES
  {
    assert Pow2(1) == 2 && Pow2(2) == 4 && Pow2(3) == 8 && Pow2(4) == 0x10 && Pow2(5) == 0x20;
    assert Pow2(6) == 0x40 && Pow2(7) == 0x80;
  }

  /** The code of a candidate gives the candidate back. */
  lemma CodesInjective(v: Factor, w: Factor)
    ensures R2Code(v) != 0 && R2Code(v) == R2Code(w) ==> v == w
    ensures R3Code(v) != 0 && R3Code(v) == R3Code(w) ==> v == w
  {
  }

  /** The target of each preset, as in the driver's switch (SPS_1066 asks for 1067 Hz). */
  function TargetHz(s: SamplingRate): (hz: real)
    ensures 25.0 <= hz <= 25600.0
  {
    match s
    case SPS_25600 => 25600.0
    case SPS_12800 => 12800.0
    case SPS_6400 => 6400.0
    case SPS_3200 => 3200.0
    case SPS_1600 => 1600.0
    case SPS_1280 => 1280.0
    case SPS_1066 => 1067.0
    case SPS_853 => 853.0
    case SPS_800 => 800.0
    case SPS_640 => 640.0
    case SPS_533 => 533.0
    case SPS_426 => 426.0
    case SPS_400 => 400.0
    case SPS_320 => 320.0
    case SPS_266 => 266.0
    case SPS_200 => 200.0
    case SPS_160 => 160.0
    case SPS_100 => 100.0
    case SPS_50 => 50.0
    case SPS_25 => 25.0
  }

  /** Presets are listed fastest first: a later code asks for a strictly lower rate. */
  lemma TargetHzDescending(s: SamplingRate, t: SamplingRate)
    requires t.Code() == s.Code() + 1
    ensures TargetHz(s) > TargetHz(t)
  {
  }
}
