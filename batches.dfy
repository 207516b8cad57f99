/** The slicing of the sub-queries into batches of at most `k`, as
    `_run_researchers` in core/orchestrator.py does it. */
module Batching {

  /** `queries[i:i + k] for i in range(0, len(queries), k)`, for `k >= 1`. */
  function Batches(qs: seq<string>, k: nat): seq<seq<string>>
    requires k >= 1
    decreases |qs|
  {
    if qs == [] then []
    else if |qs| <= k then [qs]
    else [qs[..k]] + Batches(qs[k..], k)
  }

  function Flatten(bs: seq<seq<string>>): seq<string> {
    if bs == [] then [] else bs[0] + Flatten(bs[1..])
  }

  function Min(a: int, b: int): int {
    if a <= b then a else b
  }

  lemma MulFacts(t: int, k: int)
    requires k >= 1
    ensures (t - 1) * k + k == t * k
    ensures t >= 1 ==> t * k >= k
    ensures t <= -1 ==> t * k <= -k
  {
  }

  /** Adding `k` adds one to the quotient by `k`. */
  lemma DivStep(x: nat, k: nat)
    requires k >= 1
    ensures (x + k) / k == x / k + 1
  {
    var q, r := x / k, x % k;
    var q2, r2 := (x + k) / k, (x + k) % k;
    assert x == q * k + r;
    assert x + k == q2 * k + r2;
    assert (q2 - q - 1) * k == r - r2;
    MulFacts(q2 - q - 1, k);
  }

  lemma DivSmall(x: nat, k: nat)
    requires x < k
    ensures x / k == 0
  {
  }

  /** Batch `b` of `qs[k..]` is batch `b + 1` of `qs`. */
  lemma SliceShift(qs: seq<string>, k: nat, b: nat)
    requires 1 <= k < |qs| && b >= 1 && (b - 1) * k < |qs| - k
    ensures var rest := qs[k..];
      && b * k < |qs|
      && rest[(b - 1) * k .. Min((b - 1) * k + k, |rest|)] == qs[b * k .. Min(b * k + k, |qs|)]
  {
    var rest := qs[k..];
    var lo := (b - 1) * k;
    var hi := Min(lo + k, |rest|);
    MulFacts(b, k);
    assert rest[lo..hi] == qs[k + lo..k + hi];
  }

  /** There are ceil(n / k) batches. */
  lemma {:induction false} BatchesCount(qs: seq<string>, k: nat)
    requires k >= 1
    ensures |Batches(qs, k)| == (|qs| + k - 1) / k
    decreases |qs|
  {
    if qs == [] {
    } else if |qs| <= k {
      DivSmall(|qs| - 1, k);
      DivStep(|qs| - 1, k);
    } else {
      BatchesCount(qs[k..], k);
      DivStep(|qs| - 1, k);
      assert |qs| - 1 == |qs[k..]| + k - 1;
    }
  }

  /** The batches are the slices the loop takes: batch `b` starts at `b * k`
      and holds `k` queries, or what is left for the last one. */
  lemma {:induction false} BatchesSlices(qs: seq<string>, k: nat)
    requires k >= 1
    ensures var bs := Batches(qs, k);
      forall b :: 0 <= b < |bs| ==> b * k < |qs| && bs[b] == qs[b * k .. Min(b * k + k, |qs|)]
    decreases |qs|
  {
    if qs != [] && |qs| > k {
      var bs := Batches(qs, k);
      var rest := qs[k..];
      BatchesSlices(rest, k);
      var tail := Batches(rest, k);
      assert bs == [qs[..k]] + tail;
      forall b | 0 <= b < |bs|
        ensures b * k < |qs| && bs[b] == qs[b * k .. Min(b * k + k, |qs|)]
      {
        if b > 0 {
          assert bs[b] == tail[b - 1];
          SliceShift(qs, k, b);
        }
      }
    }
  }

  /** Taken together the batches are exactly the sub-queries, in order. */
  lemma {:induction false} BatchesFlatten(qs: seq<string>, k: nat)
    requires k >= 1
    ensures Flatten(Batches(qs, k)) == qs
    decreases |qs|
  {
    if qs != [] && |qs| > k {
      var rest := Batches(qs[k..], k);
      BatchesFlatten(qs[k..], k);
      assert ([qs[..k]] + rest)[1..] == rest;
      calc {
        Flatten(Batches(qs, k));
        Flatten([qs[..k]] + rest);
        qs[..k] + Flatten(rest);
        qs[..k] + qs[k..];
        qs;
      }
    } else if qs != [] {
      assert [qs][1..] == [];
    }
  }

  /** One pass of the batch loop, started at offset `i`. */
  lemma BatchesStep(qs: seq<string>, i: nat, k: nat)
    requires k >= 1 && i < |qs|
    ensures Batches(qs[i..], k) == [qs[i..Min(i + k, |qs|)]] + Batches(qs[Min(i + k, |qs|)..], k)
  {
    var rest := qs[i..];
    if |rest| > k {
      assert rest[..k] == qs[i..i + k];
      assert rest[k..] == qs[i + k..];
    } else {
      assert Min(i + k, |qs|) == |qs| && qs[i..|qs|] == rest;
      assert Batches(rest, k) == [rest];
      assert qs[|qs|..] == [];
    }
  }
}
