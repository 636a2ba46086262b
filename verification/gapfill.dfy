/**
 * The keypoint detector's validation: the filter that keeps confident
 * keypoints inside the image, and the gap filling that synthesises a
 * keypoint for every index missing between two detected ones.
 */
module GapFill {
  import opened Geometry
  import opened Anatomy
  import opened Sorting
  import opened Distribution

  /** The sort key of `result.sort((a, b) -> Integer.compare(a.index, b.index))`. */
  function IndexKey(k: Keypoint): real {
    k.index as real
  }

  /** `KEYPOINT_CONFIDENCE_THRESHOLD` */
  const AcceptConfidence: real := 0.2

  /** A keypoint validation keeps: confident enough and inside the image. */
  predicate Accepted(k: Keypoint, width: int, height: int) {
    && k.confidence > AcceptConfidence
    && 0.0 <= k.pos.x < width as real
    && 0.0 <= k.pos.y < height as real
  }

  /** The accepted keypoints of `kps`, in their order. */
  function Accept(kps: seq<Keypoint>, width: int, height: int): (r: seq<Keypoint>)
    ensures |r| <= |kps|
    ensures forall i :: 0 <= i < |r| ==> Accepted(r[i], width, height) && r[i] in kps
  {
    if |kps| == 0 then []
    else
      var rest := kps[..|kps| - 1];
      var k := kps[|kps| - 1];
      assert forall i :: 0 <= i < |rest| ==> rest[i] == kps[i];
      Accept(rest, width, height) + (if Accepted(k, width, height) then [k] else [])
  }

  /** Filtering keeps each accepted keypoint as often as the input has it, and no other. */
  lemma {:induction false} AcceptCounts(kps: seq<Keypoint>, width: int, height: int)
    ensures forall k :: multiset(Accept(kps, width, height))[k] == if Accepted(k, width, height) then multiset(kps)[k] else 0
  {
    if |kps| > 0 {
      var rest := kps[..|kps| - 1];
      var k := kps[|kps| - 1];
      assert kps == rest + [k];
      AcceptCounts(rest, width, height);
    }
  }

  /** Filtering keeps the order of the input. */
  lemma {:induction false} AcceptKeepsOrder(kps: seq<Keypoint>, width: int, height: int)
    requires SortedBy(kps, IndexKey)
    ensures SortedBy(Accept(kps, width, height), IndexKey)
  {
    if |kps| > 0 {
      var rest := kps[..|kps| - 1];
      var k := kps[|kps| - 1];
      assert forall i :: 0 <= i < |rest| ==> rest[i] == kps[i];
      AcceptKeepsOrder(rest, width, height);
      var a := Accept(rest, width, height);
      forall i | 0 <= i < |a| ensures IndexKey(a[i]) <= IndexKey(k) {
        var j :| 0 <= j < |rest| && rest[j] == a[i];
      }
      AppendKeepsSorted(a, k);
    }
  }

  /** Filtering keeps a strict order of the input. */
  lemma {:induction false} AcceptKeepsStrictOrder(kps: seq<Keypoint>, width: int, height: int)
    requires StrictlySortedBy(kps, IndexKey)
    ensures StrictlySortedBy(Accept(kps, width, height), IndexKey)
  {
    if |kps| > 0 {
      var rest := kps[..|kps| - 1];
      var k := kps[|kps| - 1];
      assert forall i :: 0 <= i < |rest| ==> rest[i] == kps[i];
      AcceptKeepsStrictOrder(rest, width, height);
      var a := Accept(rest, width, height);
      forall i | 0 <= i < |a| ensures IndexKey(a[i]) < IndexKey(k) {
        var j :| 0 <= j < |rest| && rest[j] == a[i];
      }
      AppendKeepsStrictlySorted(a, k);
    }
  }

  /** A list whose every keypoint is accepted is its own filtered list. */
  lemma {:induction false} AcceptAll(kps: seq<Keypoint>, width: int, height: int)
    requires forall i :: 0 <= i < |kps| ==> Accepted(kps[i], width, height)
    ensures Accept(kps, width, height) == kps
  {
    if |kps| > 0 {
      var rest := kps[..|kps| - 1];
      AcceptAll(rest, width, height);
      assert kps == rest + [kps[|kps| - 1]];
    }
  }

  lemma AppendKeepsSorted(a: seq<Keypoint>, k: Keypoint)
    requires SortedBy(a, IndexKey)
    requires forall i :: 0 <= i < |a| ==> IndexKey(a[i]) <= IndexKey(k)
    ensures SortedBy(a + [k], IndexKey)
  {
  }

  lemma AppendKeepsStrictlySorted(a: seq<Keypoint>, k: Keypoint)
    requires StrictlySortedBy(a, IndexKey)
    requires forall i :: 0 <= i < |a| ==> IndexKey(a[i]) < IndexKey(k)
    ensures StrictlySortedBy(a + [k], IndexKey)
  {
  }

  /**
   * The first half of `enhancedKeypointValidation`: sort by index, then keep
   * the accepted keypoints. The result is sorted by index and holds exactly
   * the accepted keypoints of the input, each as often as in the input.
   */
  function SortAndAccept(kps: seq<Keypoint>, width: int, height: int): (r: seq<Keypoint>)
    ensures SortedBy(r, IndexKey)
    ensures forall i :: 0 <= i < |r| ==> Accepted(r[i], width, height)
    ensures multiset(r) == multiset(Accept(kps, width, height))
    ensures InTable(kps) ==> InTable(r)
  {
    var sorted := SortBy(kps, IndexKey);
    AcceptKeepsOrder(sorted, width, height);
    SameAccepted(sorted, kps, width, height);
    var r := Accept(sorted, width, height);
    assert forall i :: 0 <= i < |r| ==> r[i] in multiset(kps);
    r
  }

  /** Inputs with the same keypoints have the same accepted keypoints. */
  lemma SameAccepted(s: seq<Keypoint>, t: seq<Keypoint>, width: int, height: int)
    requires multiset(s) == multiset(t)
    ensures multiset(Accept(s, width, height)) == multiset(Accept(t, width, height))
  {
    AcceptCounts(s, width, height);
    AcceptCounts(t, width, height);
    assert forall k :: multiset(Accept(s, width, height))[k] == multiset(Accept(t, width, height))[k];
  }

  // ---------------------------------------------------------------------
  // Gap filling

  /** The eased ratio `0.5 (1 - cos(ratio π))`, which lies in [0,1]. */
  function Ease(ratio: real, m: Oracles): (e: real)
    requires m.Valid()
    ensures 0.0 <= e <= 1.0
  {
    0.5 * (1.0 - m.cos(ratio * PI))
  }

  /** Every index is a row of the label table, as `KEYPOINT_LABELS[missingIndex]` requires. */
  predicate InTable(kps: seq<Keypoint>) {
    forall i :: 0 <= i < |kps| ==> 0 <= kps[i].index < KeypointCount
  }

  /**
   * The `j`-th keypoint synthesised between `c` and `n`: index `c.index + j`
   * with its label and region, the point the eased ratio `j / gap` of the way
   * from `c` to `n`, 0.8 times the lower neighbour confidence, marked
   * interpolated.
   */
  function Filler(c: Keypoint, n: Keypoint, j: int, m: Oracles): (k: Keypoint)
    requires m.Valid() && 0 <= c.index && n.index <= KeypointCount && 1 <= j < n.index - c.index
    ensures Labelled(k, c.index + j) && k.interpolated
    ensures k.confidence == Min(c.confidence, n.confidence) * 0.8
    ensures Between(c.pos.x, n.pos.x, k.pos.x) && Between(c.pos.y, n.pos.y, k.pos.y)
  {
    var idx := c.index + j;
    var t := Ease(j as real / (n.index - c.index) as real, m);
    LerpBetween(c.pos, n.pos, t);
    Keypoint(idx, Labels[idx], SpineRegion(idx), Lerp(c.pos, n.pos, t), Min(c.confidence, n.confidence) * 0.8, true)
  }

  /** The keypoints synthesised between `c` and `n`: one per missing index, none unless the gap exceeds 1. */
  function Gap(c: Keypoint, n: Keypoint, m: Oracles): (g: seq<Keypoint>)
    requires m.Valid() && 0 <= c.index && n.index <= KeypointCount
    ensures n.index - c.index <= 1 ==> g == []
    ensures n.index - c.index > 1 ==> |g| == n.index - c.index - 1
    ensures forall j :: 0 <= j < |g| ==> g[j] == Filler(c, n, j + 1, m)
  {
    if n.index - c.index <= 1 then []
    else seq(n.index - c.index - 1, j requires 0 <= j < n.index - c.index - 1 => Filler(c, n, j + 1, m))
  }

  /** The synthesised keypoints of every adjacent pair, in the order the loop appends them. */
  function Gaps(kps: seq<Keypoint>, m: Oracles): seq<Keypoint>
    requires m.Valid() && InTable(kps)
  {
    if |kps| < 2 then []
    else Gap(kps[0], kps[1], m) + Gaps(kps[1..], m)
  }

  /**
   * `smartInterpolation`: fewer than three keypoints come back unchanged;
   * otherwise the synthesised keypoints are appended and the whole list is
   * sorted by index.
   */
  function SmartInterpolation(kps: seq<Keypoint>, m: Oracles): (r: seq<Keypoint>)
    requires m.Valid() && InTable(kps)
    ensures |kps| < 3 ==> r == kps
    ensures |kps| >= 3 ==> SortedBy(r, IndexKey) && multiset(r) == multiset(kps) + multiset(Gaps(kps, m))
  {
    if |kps| < 3 then kps else SortBy(kps + Gaps(kps, m), IndexKey)
  }

  /** The input keypoints with each gap's synthesised keypoints in place after its left end. */
  function Merged(kps: seq<Keypoint>, m: Oracles): seq<Keypoint>
    requires m.Valid() && InTable(kps) && |kps| >= 1
  {
    if |kps| == 1 then kps
    else [kps[0]] + Gap(kps[0], kps[1], m) + Merged(kps[1..], m)
  }

  /** The merged list holds the input and the synthesised keypoints. */
  lemma {:induction false} MergedHoldsAll(kps: seq<Keypoint>, m: Oracles)
    requires m.Valid() && InTable(kps) && |kps| >= 1
    ensures multiset(Merged(kps, m)) == multiset(kps) + multiset(Gaps(kps, m))
  {
    if |kps| > 1 {
      MergedHoldsAll(kps[1..], m);
      assert kps == [kps[0]] + kps[1..];
    }
  }

  /** Each keypoint's index is below the next one's. */
  predicate IndicesIncrease(kps: seq<Keypoint>) {
    forall i :: 0 <= i < |kps| - 1 ==> kps[i].index < kps[i + 1].index
  }

  /**
   * For keypoints with increasing indices, the merged list has every index
   * from the first to the last exactly once, in order, and each input
   * keypoint sits at its own index.
   */
  lemma {:induction false} MergedContiguous(kps: seq<Keypoint>, m: Oracles)
    requires m.Valid() && InTable(kps) && |kps| >= 1 && IndicesIncrease(kps)
    ensures Contiguous(kps, Merged(kps, m))
  {
    if |kps| > 1 {
      var rest := kps[1..];
      assert IndicesIncrease(rest) by {
        forall i | 0 <= i < |rest| - 1 ensures rest[i].index < rest[i + 1].index {
          assert rest[i] == kps[i + 1] && rest[i + 1] == kps[i + 2];
        }
      }
      MergedContiguous(rest, m);
      MergedContiguousStep(kps, m);
    } else {
      assert Merged(kps, m) == kps;
    }
  }

  /** The inductive step of `MergedContiguous`: a contiguous merge of the tail extends to the whole list. */
  lemma MergedContiguousStep(kps: seq<Keypoint>, m: Oracles)
    requires m.Valid() && InTable(kps) && |kps| >= 2 && IndicesIncrease(kps)
    requires Contiguous(kps[1..], Merged(kps[1..], m))
    ensures Contiguous(kps, Merged(kps, m))
  {
    GapIndices(kps[0], kps[1], m);
    MergedStep(kps, Gap(kps[0], kps[1], m), Merged(kps[1..], m));
  }

  /** One step of `MergedContiguous`: a keypoint, its gap, and the contiguous rest. */
  lemma MergedStep(kps: seq<Keypoint>, g: seq<Keypoint>, mr: seq<Keypoint>)
    requires |kps| >= 2 && kps[0].index < kps[1].index
    requires |g| == kps[1].index - kps[0].index - 1
    requires forall j :: 0 <= j < |g| ==> g[j].index == kps[0].index + 1 + j
    requires |mr| == kps[|kps| - 1].index - kps[1].index + 1
    requires forall i :: 0 <= i < |mr| ==> mr[i].index == kps[1].index + i
    requires forall j :: 0 <= j < |kps[1..]| ==>
      && 0 <= kps[1..][j].index - kps[1..][0].index < |mr|
      && mr[kps[1..][j].index - kps[1..][0].index] == kps[1..][j]
    ensures |[kps[0]] + g + mr| == kps[|kps| - 1].index - kps[0].index + 1
    ensures forall i :: 0 <= i < |[kps[0]] + g + mr| ==> ([kps[0]] + g + mr)[i].index == kps[0].index + i
    ensures forall j :: 0 <= j < |kps| ==>
      && 0 <= kps[j].index - kps[0].index < |[kps[0]] + g + mr|
      && ([kps[0]] + g + mr)[kps[j].index - kps[0].index] == kps[j]
  {
    var all := [kps[0]] + g + mr;
    ConcatIndices(kps[0], g, mr, kps[0].index);
    forall j | 0 <= j < |kps|
      ensures 0 <= kps[j].index - kps[0].index < |all|
      ensures all[kps[j].index - kps[0].index] == kps[j]
    {
      if j > 0 {
        assert kps[1..][j - 1] == kps[j] && kps[1..][0] == kps[1];
        var t := kps[j].index - kps[1].index;
        assert 0 <= t < |mr| && mr[t] == kps[j];
        ConcatTail(kps[0], g, mr, t);
      }
    }
  }

  /** The synthesised keypoints of a gap carry the missing indices in order. */
  lemma GapIndices(c: Keypoint, n: Keypoint, m: Oracles)
    requires m.Valid() && 0 <= c.index < n.index <= KeypointCount
    ensures |Gap(c, n, m)| == n.index - c.index - 1
    ensures forall j :: 0 <= j < |Gap(c, n, m)| ==> Gap(c, n, m)[j].index == c.index + 1 + j
  {
  }

  lemma ConcatIndices(k0: Keypoint, g: seq<Keypoint>, mr: seq<Keypoint>, start: int)
    requires k0.index == start
    requires forall j :: 0 <= j < |g| ==> g[j].index == start + 1 + j
    requires forall i :: 0 <= i < |mr| ==> mr[i].index == start + 1 + |g| + i
    ensures forall i :: 0 <= i < |[k0] + g + mr| ==> ([k0] + g + mr)[i].index == start + i
  {
    var all := [k0] + g + mr;
    forall i | 0 <= i < |all|
      ensures all[i].index == start + i
    {
      if i == 0 {
      } else if i <= |g| {
        assert all[i] == g[i - 1];
      } else {
        assert all[i] == mr[i - 1 - |g|];
      }
    }
  }

  lemma ConcatTail(k0: Keypoint, g: seq<Keypoint>, mr: seq<Keypoint>, t: int)
    requires 0 <= t < |mr|
    ensures ([k0] + g + mr)[1 + |g| + t] == mr[t]
  {
  }

  /**
   * `mr` runs through every index from the first of `kps` to the last, once
   * each and in order, and holds each keypoint of `kps` at its own index.
   */
  predicate Contiguous(kps: seq<Keypoint>, mr: seq<Keypoint>)
    requires |kps| >= 1
  {
    && |mr| == kps[|kps| - 1].index - kps[0].index + 1
    && (forall i :: 0 <= i < |mr| ==> mr[i].index == kps[0].index + i)
    && (forall j :: 0 <= j < |kps| ==>
          && 0 <= kps[j].index - kps[0].index < |mr|
          && mr[kps[j].index - kps[0].index] == kps[j])
  }

  /**
   * Gap filling on three or more keypoints with strictly increasing indices
   * yields every index from the first to the last exactly once, in order:
   * each input keypoint at its own index, and a synthesised, interpolated one
   * at each missing index.
   */
  lemma InterpolationFillsEveryIndex(kps: seq<Keypoint>, m: Oracles)
    requires m.Valid() && InTable(kps) && |kps| >= 3 && StrictlySortedBy(kps, IndexKey)
    ensures var r := SmartInterpolation(kps, m);
      && |r| == kps[|kps| - 1].index - kps[0].index + 1
      && (forall i :: 0 <= i < |r| ==> r[i].index == kps[0].index + i)
      && (forall j :: 0 <= j < |kps| ==> r[kps[j].index - kps[0].index] == kps[j])
  {
    var merged := Merged(kps, m);
    assert IndicesIncrease(kps) by {
      forall i | 0 <= i < |kps| - 1 ensures kps[i].index < kps[i + 1].index {
        assert IndexKey(kps[i]) < IndexKey(kps[i + 1]);
      }
    }
    MergedContiguous(kps, m);
    MergedHoldsAll(kps, m);
    assert StrictlySortedBy(merged, IndexKey);
    SortedPermutationUnique(SortBy(kps + Gaps(kps, m), IndexKey), merged, IndexKey);
  }

  /**
   * `enhancedKeypointValidation`: sort by index, keep the accepted
   * keypoints, fill their gaps. The label table bounds every index.
   */
  function ValidateKeypoints(kps: seq<Keypoint>, width: int, height: int, m: Oracles): (r: seq<Keypoint>)
    requires m.Valid() && InTable(kps)
    ensures |Accept(kps, width, height)| < 3 ==> multiset(r) == multiset(Accept(kps, width, height))
    ensures |Accept(kps, width, height)| >= 3 ==>
      multiset(r) == multiset(Accept(kps, width, height)) + multiset(Gaps(SortAndAccept(kps, width, height), m))
    ensures SortedBy(r, IndexKey)
  {
    var kept := SortAndAccept(kps, width, height);
    assert |kept| == |Accept(kps, width, height)| by {
      assert |multiset(kept)| == |multiset(Accept(kps, width, height))|;
    }
    SmartInterpolation(kept, m)
  }

  /** No two keypoints share an index. */
  predicate DistinctIndices(kps: seq<Keypoint>) {
    forall i, j :: 0 <= i < j < |kps| ==> kps[i].index != kps[j].index
  }

  /**
   * `r` runs through consecutive indices, at least three of them, starts and
   * ends at keypoints of `acc`, and holds every keypoint of `acc`.
   */
  predicate FillsRange(acc: seq<Keypoint>, r: seq<Keypoint>) {
    && |r| >= 3
    && (forall i :: 0 <= i < |r| ==> r[i].index == r[0].index + i)
    && r[0] in acc && r[|r| - 1] in acc
    && (forall k :: k in acc ==> k in r)
  }

  /**
   * When no two accepted keypoints share an index and at least three are
   * accepted, validation yields every index from the lowest accepted one to
   * the highest exactly once, in order: both ends are accepted keypoints,
   * every accepted keypoint is kept, and each index in between is filled.
   */
  lemma ValidationFillsEveryIndex(kps: seq<Keypoint>, width: int, height: int, m: Oracles)
    requires m.Valid() && InTable(kps)
    requires |Accept(kps, width, height)| >= 3 && DistinctIndices(Accept(kps, width, height))
    ensures FillsRange(Accept(kps, width, height), ValidateKeypoints(kps, width, height, m))
  {
    var kept := SortAndAccept(kps, width, height);
    assert ValidateKeypoints(kps, width, height, m) == SmartInterpolation(kept, m)
        && |kept| >= 3 && InTable(kept) && StrictlySortedBy(kept, IndexKey) by {
      KeptStrictlySorted(kps, width, height);
      ValidationInterpolatesKept(kps, width, height, m);
    }
    InterpolationFillsRange(Accept(kps, width, height), kept, m);
  }

  /** Gap filling of strictly ordered keypoints fills the range of any rearrangement of them. */
  lemma InterpolationFillsRange(acc: seq<Keypoint>, kept: seq<Keypoint>, m: Oracles)
    requires m.Valid() && InTable(kept) && |kept| >= 3 && StrictlySortedBy(kept, IndexKey)
    requires multiset(acc) == multiset(kept)
    ensures FillsRange(acc, SmartInterpolation(kept, m))
  {
    InterpolationKeepsEnds(kept, m);
    SameMembers(acc, kept);
  }

  /** Validation is gap filling of the sorted accepted keypoints. */
  lemma ValidationInterpolatesKept(kps: seq<Keypoint>, width: int, height: int, m: Oracles)
    requires m.Valid() && InTable(kps)
    ensures InTable(SortAndAccept(kps, width, height))
    ensures ValidateKeypoints(kps, width, height, m) == SmartInterpolation(SortAndAccept(kps, width, height), m)
  {
  }

  /** Sequences with the same multiset have the same members. */
  lemma SameMembers(s: seq<Keypoint>, t: seq<Keypoint>)
    requires multiset(s) == multiset(t)
    ensures forall k :: k in s <==> k in t
  {
    forall k
      ensures k in s <==> k in t
    {
      assert k in s <==> k in multiset(s);
      assert k in t <==> k in multiset(t);
    }
  }

  /** With distinct accepted indices, the sorted accepted keypoints strictly increase in index. */
  lemma KeptStrictlySorted(kps: seq<Keypoint>, width: int, height: int)
    requires InTable(kps) && DistinctIndices(Accept(kps, width, height))
    ensures |SortAndAccept(kps, width, height)| == |Accept(kps, width, height)|
    ensures InTable(SortAndAccept(kps, width, height))
    ensures StrictlySortedBy(SortAndAccept(kps, width, height), IndexKey)
  {
    var accepted := Accept(kps, width, height);
    var kept := SortAndAccept(kps, width, height);
    assert |multiset(kept)| == |multiset(accepted)|;
    DistinctIndicesPermuted(accepted, kept);
  }

  /**
   * Gap filling on strictly increasing indices keeps its first and last
   * keypoints at the ends, keeps every input keypoint, and is contiguous.
   */
  lemma InterpolationKeepsEnds(kps: seq<Keypoint>, m: Oracles)
    requires m.Valid() && InTable(kps) && |kps| >= 3 && StrictlySortedBy(kps, IndexKey)
    ensures var r := SmartInterpolation(kps, m);
      && |r| >= 3
      && (forall i :: 0 <= i < |r| ==> r[i].index == r[0].index + i)
      && r[0] == kps[0] && r[|r| - 1] == kps[|kps| - 1]
      && (forall k :: k in kps ==> k in r)
  {
    var r := SmartInterpolation(kps, m);
    InterpolationFillsEveryIndex(kps, m);
    assert IndexKey(kps[0]) < IndexKey(kps[1]) < IndexKey(kps[|kps| - 1]);
    forall k | k in kps
      ensures k in r
    {
      var j :| 0 <= j < |kps| && kps[j] == k;
      assert r[kps[j].index - kps[0].index] == k;
    }
  }

  /** Distinct indices survive any rearrangement of the keypoints. */
  lemma DistinctIndicesPermuted(s: seq<Keypoint>, t: seq<Keypoint>)
    requires multiset(s) == multiset(t) && DistinctIndices(s)
    ensures DistinctIndices(t)
  {
    forall i, j | 0 <= i < j < |t|
      ensures t[i].index != t[j].index
    {
      var p, q := TwoPlaces(s, t, i, j);
    }
  }

  /** Two places of a rearrangement come from two places of the original. */
  lemma TwoPlaces(s: seq<Keypoint>, t: seq<Keypoint>, i: int, j: int) returns (p: int, q: int)
    requires multiset(s) == multiset(t) && 0 <= i < j < |t|
    ensures 0 <= p < |s| && 0 <= q < |s| && p != q && s[p] == t[i] && s[q] == t[j]
  {
    if t[i] == t[j] {
      assert t == t[..i] + [t[i]] + t[i + 1..j] + [t[j]] + t[j + 1..];
      assert multiset(s)[t[i]] >= 2;
      p, q := TwoOccurrences(s, t[i]);
    } else {
      assert t[i] in multiset(s) && t[j] in multiset(s);
      p :| 0 <= p < |s| && s[p] == t[i];
      q :| 0 <= q < |s| && s[q] == t[j];
    }
  }

  /** A value counted twice sits at two places. */
  lemma {:induction false} TwoOccurrences(s: seq<Keypoint>, x: Keypoint) returns (p: int, q: int)
    requires multiset(s)[x] >= 2
    ensures 0 <= p < q < |s| && s[p] == x && s[q] == x
  {
    var n := |s|;
    assert s == s[..n - 1] + [s[n - 1]];
    if s[n - 1] == x {
      assert x in multiset(s[..n - 1]);
      p :| 0 <= p < n - 1 && s[..n - 1][p] == x;
      q := n - 1;
    } else {
      p, q := TwoOccurrences(s[..n - 1], x);
    }
  }

  /** Keypoints at consecutive indices leave no gap to fill. */
  lemma {:induction false} NoGapsBetweenConsecutive(kps: seq<Keypoint>, m: Oracles)
    requires m.Valid() && InTable(kps)
    requires forall i :: 0 <= i < |kps| - 1 ==> kps[i + 1].index == kps[i].index + 1
    ensures Gaps(kps, m) == []
  {
    if |kps| >= 2 {
      NoGapsBetweenConsecutive(kps[1..], m);
    }
  }

  /**
   * Validation returns a complete set of keypoints unchanged when it accepts
   * all of them: they are already in index order and leave no gap.
   */
  lemma ValidationKeepsAcceptedCompleteSet(kps: seq<Keypoint>, width: int, height: int, m: Oracles)
    requires m.Valid() && Complete(kps)
    requires forall i :: 0 <= i < |kps| ==> Accepted(kps[i], width, height)
    ensures InTable(kps) && ValidateKeypoints(kps, width, height, m) == kps
  {
    CompleteSetIsOrdered(kps);
    ValidationKeepsConsecutive(kps, width, height, m);
  }

  /** Validation returns accepted keypoints at consecutive increasing indices unchanged. */
  lemma ValidationKeepsConsecutive(kps: seq<Keypoint>, width: int, height: int, m: Oracles)
    requires m.Valid() && InTable(kps) && StrictlySortedBy(kps, IndexKey)
    requires forall i :: 0 <= i < |kps| - 1 ==> kps[i + 1].index == kps[i].index + 1
    requires forall i :: 0 <= i < |kps| ==> Accepted(kps[i], width, height)
    ensures ValidateKeypoints(kps, width, height, m) == kps
  {
    SortAndAcceptKeepsOrdered(kps, width, height);
    InterpolationKeepsConsecutive(kps, m);
    ValidationInterpolatesKept(kps, width, height, m);
  }

  /** Sorting and filtering keypoints that are strictly ordered and all accepted changes nothing. */
  lemma SortAndAcceptKeepsOrdered(kps: seq<Keypoint>, width: int, height: int)
    requires StrictlySortedBy(kps, IndexKey)
    requires forall i :: 0 <= i < |kps| ==> Accepted(kps[i], width, height)
    ensures SortAndAccept(kps, width, height) == kps
  {
    SortStrictlySortedIsIdentity(kps, IndexKey);
    AcceptAll(kps, width, height);
  }

  /** Gap filling leaves keypoints at consecutive increasing indices unchanged. */
  lemma InterpolationKeepsConsecutive(kps: seq<Keypoint>, m: Oracles)
    requires m.Valid() && InTable(kps) && StrictlySortedBy(kps, IndexKey)
    requires forall i :: 0 <= i < |kps| - 1 ==> kps[i + 1].index == kps[i].index + 1
    ensures SmartInterpolation(kps, m) == kps
  {
    NoGapsBetweenConsecutive(kps, m);
    assert kps + Gaps(kps, m) == kps;
    SortStrictlySortedIsIdentity(kps, IndexKey);
  }

  /** A complete set is strictly ordered by index, each index one more than the last, inside the table. */
  lemma CompleteSetIsOrdered(kps: seq<Keypoint>)
    requires Complete(kps)
    ensures InTable(kps) && StrictlySortedBy(kps, IndexKey)
    ensures forall i :: 0 <= i < |kps| - 1 ==> kps[i + 1].index == kps[i].index + 1
  {
    assert forall i :: 0 <= i < |kps| ==> Labelled(kps[i], i);
  }
}
