/**
 * Specification of `AtxStaticAnalyzer.SearchPeaksEdges`: which interior indices of
 * a series are extrema (peaks or valleys) and which are edges, for a window of
 * `w` samples (a real number) and an edge sensitivity `s`.
 *
 * The backward scan of index i compares the samples i-1, i-2, ..., i-b and the
 * forward scan the samples i+1, ..., i+f, where b and f are the iteration counts
 * of `for (int r = 0; r < limit; r++)` with a `float` limit min(i, w) and
 * min(N-1-i, w).
 */
module PeakSearch {
  import opened Common

  const Positive: int := 1
  const Negative: int := -1

  /** The number of iterations of `for (int r = 0; r < limit; r++)` with a real `limit`. */
  function ScanLength(limit: real): nat
  {
    if limit <= 0.0 then 0
    else if limit.Floor as real == limit then limit.Floor
    else limit.Floor + 1
  }

  /** The loop test `r < limit` holds exactly for the first ScanLength(limit) values of r. */
  lemma ScanLengthBound(limit: real, r: nat)
    ensures r as real < limit <==> r < ScanLength(limit)
  {
  }

  /** How many samples one scan compares when `room` samples lie on that side. */
  function Span(room: nat, window: real): (n: nat)
    ensures n <= room
  {
    ScanLength(RMin(room as real, window))
  }

  /** `PeakDetectionWindowSizePercent * points.Length`. */
  function WindowSize(fraction: real, n: nat): real
  {
    fraction * n as real
  }

  predicate Interior(p: seq<real>, i: int)
  {
    1 <= i < |p| - 1
  }

  /** Every sample in p[lo..hi) is strictly below v. */
  predicate AllBelow(p: seq<real>, v: real, lo: int, hi: int)
    requires 0 <= lo <= hi <= |p|
  {
    forall j :: lo <= j < hi ==> p[j] < v
  }

  /** Every sample in p[lo..hi) is strictly above v. */
  predicate AllAbove(p: seq<real>, v: real, lo: int, hi: int)
    requires 0 <= lo <= hi <= |p|
  {
    forall j :: lo <= j < hi ==> p[j] > v
  }

  /** Some sample in p[lo..hi) differs from v by more than s. */
  predicate AnyFar(p: seq<real>, v: real, s: real, lo: int, hi: int)
    requires 0 <= lo <= hi <= |p|
  {
    exists j :: lo <= j < hi && Abs(v - p[j]) > s
  }

  /** No two samples of p[lo..hi) disagree on `sample > v`: the scan's sign never flips. */
  predicate SameSide(p: seq<real>, v: real, lo: int, hi: int)
    requires 0 <= lo <= hi <= |p|
  {
    forall j, k :: lo <= j < hi && lo <= k < hi ==> (p[j] > v) == (p[k] > v)
  }

  /** Samples compared backwards from i: p[i - BackSpan .. i). */
  function BackSpan(p: seq<real>, i: int, w: real): (n: nat)
    requires Interior(p, i)
    ensures n <= i
  {
    Span(i, w)
  }

  /** Samples compared forwards from i: p[i + 1 .. i + 1 + FwdSpan). */
  function FwdSpan(p: seq<real>, i: int, w: real): (n: nat)
    requires Interior(p, i)
    ensures i + 1 + n <= |p|
  {
    Span(|p| - 1 - i, w)
  }

  /** Every compared sample is strictly below p[i]. */
  predicate IsPeak(p: seq<real>, i: int, w: real)
  {
    Interior(p, i)
    && AllBelow(p, p[i], i - BackSpan(p, i, w), i)
    && AllBelow(p, p[i], i + 1, i + 1 + FwdSpan(p, i, w))
  }

  /** Every compared sample is strictly above p[i]. */
  predicate IsValley(p: seq<real>, i: int, w: real)
  {
    Interior(p, i)
    && AllAbove(p, p[i], i - BackSpan(p, i, w), i)
    && AllAbove(p, p[i], i + 1, i + 1 + FwdSpan(p, i, w))
  }

  predicate IsExtremum(p: seq<real>, i: int, w: real)
  {
    IsPeak(p, i, w) || IsValley(p, i, w)
  }

  /** `edgeRight`: seeded from the next sample, cleared when the backward scan's sign flips. */
  predicate EdgeRight(p: seq<real>, i: int, w: real, s: real)
    requires Interior(p, i)
  {
    Abs(p[i + 1] - p[i]) > s && SameSide(p, p[i], i - BackSpan(p, i, w), i)
  }

  /** `edgeLeft`: seeded from the previous sample, cleared when the forward scan's sign flips. */
  predicate EdgeLeft(p: seq<real>, i: int, w: real, s: real)
    requires Interior(p, i)
  {
    Abs(p[i - 1] - p[i]) > s && SameSide(p, p[i], i + 1, i + 1 + FwdSpan(p, i, w))
  }

  /** `different`: some compared sample differs from p[i] by more than s. */
  predicate Different(p: seq<real>, i: int, w: real, s: real)
    requires Interior(p, i)
  {
    AnyFar(p, p[i], s, i - BackSpan(p, i, w), i)
    || AnyFar(p, p[i], s, i + 1, i + 1 + FwdSpan(p, i, w))
  }

  /** A non-extremum index reported as an edge. */
  predicate IsEdge(p: seq<real>, i: int, w: real, s: real)
  {
    Interior(p, i) && (EdgeRight(p, i, w, s) || EdgeLeft(p, i, w, s)) && Different(p, i, w, s)
  }

  /** The extrema among the indices below k, in increasing order. */
  function ExtremaBelow(p: seq<real>, w: real, k: int): seq<int>
    decreases k
  {
    if k <= 1 then []
    else ExtremaBelow(p, w, k - 1) + (if IsExtremum(p, k - 1, w) then [k - 1] else [])
  }

  /** Index i goes into the edge list: an extremum or an edge. */
  predicate IsReportedEdge(p: seq<real>, i: int, w: real, s: real)
  {
    IsExtremum(p, i, w) || IsEdge(p, i, w, s)
  }

  /** The edges (extrema included) among the indices below k, in increasing order. */
  function EdgesBelow(p: seq<real>, w: real, s: real, k: int): seq<int>
    decreases k
  {
    if k <= 1 then []
    else EdgesBelow(p, w, s, k - 1) + (if IsReportedEdge(p, k - 1, w, s) then [k - 1] else [])
  }

  /** Widening a compared range by one sample at its low end (the backward scan). */
  lemma GrowLow(p: seq<real>, v: real, s: real, lo: int, hi: int)
    requires 1 <= lo <= hi <= |p|
    ensures AllBelow(p, v, lo - 1, hi) <==> AllBelow(p, v, lo, hi) && p[lo - 1] < v
    ensures AllAbove(p, v, lo - 1, hi) <==> AllAbove(p, v, lo, hi) && p[lo - 1] > v
    ensures AnyFar(p, v, s, lo - 1, hi) <==> AnyFar(p, v, s, lo, hi) || Abs(v - p[lo - 1]) > s
    ensures lo == hi ==> SameSide(p, v, lo - 1, hi)
    ensures lo < hi ==>
              (SameSide(p, v, lo - 1, hi) <==> SameSide(p, v, lo, hi) && (p[lo - 1] > v) == (p[hi - 1] > v))
  {
    if AnyFar(p, v, s, lo - 1, hi) && Abs(v - p[lo - 1]) <= s {
      var j :| lo - 1 <= j < hi && Abs(v - p[j]) > s;
      assert lo <= j;
    }
    if AnyFar(p, v, s, lo, hi) {
      var j :| lo <= j < hi && Abs(v - p[j]) > s;
      assert lo - 1 <= j < hi;
    }
  }

  /** Widening a compared range by one sample at its high end (the forward scan). */
  lemma GrowHigh(p: seq<real>, v: real, s: real, lo: int, hi: int)
    requires 0 <= lo <= hi < |p|
    ensures AllBelow(p, v, lo, hi + 1) <==> AllBelow(p, v, lo, hi) && p[hi] < v
    ensures AllAbove(p, v, lo, hi + 1) <==> AllAbove(p, v, lo, hi) && p[hi] > v
    ensures AnyFar(p, v, s, lo, hi + 1) <==> AnyFar(p, v, s, lo, hi) || Abs(v - p[hi]) > s
    ensures lo == hi ==> SameSide(p, v, lo, hi + 1)
    ensures lo < hi ==>
              (SameSide(p, v, lo, hi + 1) <==> SameSide(p, v, lo, hi) && (p[hi] > v) == (p[lo] > v))
  {
    if AnyFar(p, v, s, lo, hi + 1) && Abs(v - p[hi]) <= s {
      var j :| lo <= j < hi + 1 && Abs(v - p[j]) > s;
      assert j < hi;
    }
    if AnyFar(p, v, s, lo, hi) {
      var j :| lo <= j < hi && Abs(v - p[j]) > s;
      assert lo <= j < hi + 1;
    }
  }

  /** Both lists hold indices in [1, k) in strictly increasing order. */
  lemma {:induction false} BelowIncreasing(p: seq<real>, w: real, s: real, k: int)
    ensures forall j :: 0 <= j < |ExtremaBelow(p, w, k)| ==> 1 <= ExtremaBelow(p, w, k)[j] < k
    ensures forall j, l :: 0 <= j < l < |ExtremaBelow(p, w, k)| ==> ExtremaBelow(p, w, k)[j] < ExtremaBelow(p, w, k)[l]
    ensures forall j :: 0 <= j < |EdgesBelow(p, w, s, k)| ==> 1 <= EdgesBelow(p, w, s, k)[j] < k
    ensures forall j, l :: 0 <= j < l < |EdgesBelow(p, w, s, k)| ==> EdgesBelow(p, w, s, k)[j] < EdgesBelow(p, w, s, k)[l]
    decreases k
  {
    if k > 1 {
      BelowIncreasing(p, w, s, k - 1);
    }
  }

  /** The extrema below k are exactly the indices below k that are extrema. */
  lemma {:induction false} ExtremaBelowMembers(p: seq<real>, w: real, k: int)
    ensures forall i :: i in ExtremaBelow(p, w, k) <==> i < k && IsExtremum(p, i, w)
    decreases k
  {
    if k > 1 {
      ExtremaBelowMembers(p, w, k - 1);
    }
  }

  /** The edges below k are exactly the indices below k that are reported as edges. */
  lemma {:induction false} EdgesBelowMembers(p: seq<real>, w: real, s: real, k: int)
    ensures forall i :: i in EdgesBelow(p, w, s, k) <==> i < k && IsReportedEdge(p, i, w, s)
    decreases k
  {
    if k > 1 {
      EdgesBelowMembers(p, w, s, k - 1);
    }
  }

  /** +1 when no extremum lies below k, else the kind of the first one. */
  function SignBelow(p: seq<real>, w: real, k: int): int
  {
    var ex := ExtremaBelow(p, w, k);
    if |ex| == 0 then Positive
    else if IsPeak(p, ex[0], w) then Positive
    else Negative
  }

  /** The flags of one index, each stated over the two compared ranges, decide the
      index's classification. */
  lemma ClassifyFlags(p: seq<real>, i: int, w: real, s: real,
                      peak: bool, valley: bool, edgeRight: bool, edgeLeft: bool, different: bool)
    requires Interior(p, i)
    requires peak == (AllBelow(p, p[i], i - BackSpan(p, i, w), i)
                      && AllBelow(p, p[i], i + 1, i + 1 + FwdSpan(p, i, w)))
    requires valley == (AllAbove(p, p[i], i - BackSpan(p, i, w), i)
                        && AllAbove(p, p[i], i + 1, i + 1 + FwdSpan(p, i, w)))
    requires edgeRight == (Abs(p[i + 1] - p[i]) > s && SameSide(p, p[i], i - BackSpan(p, i, w), i))
    requires edgeLeft == (Abs(p[i - 1] - p[i]) > s && SameSide(p, p[i], i + 1, i + 1 + FwdSpan(p, i, w)))
    requires different == (AnyFar(p, p[i], s, i - BackSpan(p, i, w), i)
                           || AnyFar(p, p[i], s, i + 1, i + 1 + FwdSpan(p, i, w)))
    ensures peak == IsPeak(p, i, w)
    ensures (peak || valley) == IsExtremum(p, i, w)
    ensures (peak || valley || ((edgeRight || edgeLeft) && different)) == IsReportedEdge(p, i, w, s)
  {
    assert IsPeak(p, i, w) == peak;
    assert IsValley(p, i, w) == valley;
    assert EdgeRight(p, i, w, s) == edgeRight && EdgeLeft(p, i, w, s) == edgeLeft;
    assert Different(p, i, w, s) == different;
  }

  /** Classifying interior index i extends the three results below i. */
  lemma ClassifyStep(p: seq<real>, w: real, s: real, i: int)
    requires Interior(p, i)
    ensures ExtremaBelow(p, w, i + 1) == ExtremaBelow(p, w, i) + (if IsExtremum(p, i, w) then [i] else [])
    ensures EdgesBelow(p, w, s, i + 1) == EdgesBelow(p, w, s, i) + (if IsReportedEdge(p, i, w, s) then [i] else [])
    ensures SignBelow(p, w, i + 1)
            == if |ExtremaBelow(p, w, i)| == 0 && IsExtremum(p, i, w)
               then (if IsPeak(p, i, w) then Positive else Negative)
               else SignBelow(p, w, i)
  {
    var ex := ExtremaBelow(p, w, i);
    if |ex| > 0 {
      assert ExtremaBelow(p, w, i + 1)[0] == ex[0];
    }
  }

  /** Below the last index every interior index has been classified. */
  lemma ClassifyDone(p: seq<real>, w: real, s: real, k: int)
    requires 1 <= k && (k == |p| - 1 || (k == 1 && |p| <= 2))
    ensures ExtremaBelow(p, w, k) == ExtremaBelow(p, w, |p|)
    ensures EdgesBelow(p, w, s, k) == EdgesBelow(p, w, s, |p|)
    ensures SignBelow(p, w, k) == SignBelow(p, w, |p|)
  {
    if |p| >= 2 {
      assert !Interior(p, |p| - 1);
      assert !IsExtremum(p, |p| - 1, w);
      assert !IsReportedEdge(p, |p| - 1, w, s);
    }
  }

  /** The three results of `SearchPeaksEdges` for a series and window. */
  function Extrema(p: seq<real>, w: real): seq<int>
  {
    ExtremaBelow(p, w, |p|)
  }

  function Edges(p: seq<real>, w: real, s: real): seq<int>
  {
    EdgesBelow(p, w, s, |p|)
  }

  function StartingSign(p: seq<real>, w: real): int
  {
    SignBelow(p, w, |p|)
  }

  /** Only interior indices are reported, both lists strictly increase, and every
      extremum is also an edge. */
  lemma ExtremaAreInteriorEdges(p: seq<real>, w: real, s: real)
    ensures forall j :: 0 <= j < |Extrema(p, w)| ==> Interior(p, Extrema(p, w)[j])
    ensures forall j :: 0 <= j < |Edges(p, w, s)| ==> Interior(p, Edges(p, w, s)[j])
    ensures forall j :: 0 <= j < |Extrema(p, w)| ==> Extrema(p, w)[j] in Edges(p, w, s)
    ensures |Extrema(p, w)| <= |Edges(p, w, s)|
  {
    var ex, ed := Extrema(p, w), Edges(p, w, s);
    BelowIncreasing(p, w, s, |p|);
    ExtremaBelowMembers(p, w, |p|);
    EdgesBelowMembers(p, w, s, |p|);
    forall j | 0 <= j < |ex| ensures Interior(p, ex[j]) {
      assert ex[j] in ex;
    }
    forall j | 0 <= j < |ed| ensures Interior(p, ed[j]) {
      assert ed[j] in ed;
    }
    var exSet := set j | 0 <= j < |ex| :: ex[j];
    var edSet := set j | 0 <= j < |ed| :: ed[j];
    forall x | x in exSet ensures x in edSet {
      assert IsReportedEdge(p, x, w, s);
    }
    DistinctCard(ex);
    DistinctCard(ed);
    assert |exSet| <= |edSet| by { SubsetCard(exSet, edSet); }
  }

  /** A strictly increasing sequence has as many distinct elements as positions. */
  lemma {:induction false} DistinctCard(r: seq<int>)
    requires forall j, l :: 0 <= j < l < |r| ==> r[j] < r[l]
    ensures |set j | 0 <= j < |r| :: r[j]| == |r|
  {
    if |r| > 0 {
      var init := r[..|r| - 1];
      DistinctCard(init);
      var s0 := set j | 0 <= j < |init| :: init[j];
      var s1 := set j | 0 <= j < |r| :: r[j];
      assert s1 == s0 + {r[|r| - 1]};
      assert r[|r| - 1] !in s0;
    }
  }

  lemma SubsetCard(a: set<int>, b: set<int>)
    requires a <= b
    ensures |a| <= |b|
  {
    assert b == a + (b - a);
  }

  /** The starting sign is +1 without extrema, else +1 for a leading peak and -1 for
      a leading valley. */
  lemma StartingSignIsFirstKind(p: seq<real>, w: real)
    ensures |Extrema(p, w)| == 0 ==> StartingSign(p, w) == Positive
    ensures |Extrema(p, w)| > 0 && IsPeak(p, Extrema(p, w)[0], w) ==> StartingSign(p, w) == Positive
    ensures |Extrema(p, w)| > 0 && !IsPeak(p, Extrema(p, w)[0], w)
            ==> StartingSign(p, w) == Negative && IsValley(p, Extrema(p, w)[0], w)
    ensures StartingSign(p, w) == Positive || StartingSign(p, w) == Negative
  {
    var ex := Extrema(p, w);
    if |ex| > 0 {
      ExtremaBelowMembers(p, w, |p|);
      assert ex[0] in ex;
    }
  }

  /** With a window of at most zero samples nothing is compared, so every interior
      index is an extremum. */
  lemma {:induction false} NonPositiveWindowAllExtrema(p: seq<real>, w: real, k: int)
    requires w <= 0.0 && 1 <= k <= |p| - 1
    ensures ExtremaBelow(p, w, k) == seq(k - 1, j => j + 1)
  {
    if k > 1 {
      NonPositiveWindowAllExtrema(p, w, k - 1);
      assert Span(k - 1, w) == 0 && Span(|p| - 1 - (k - 1), w) == 0;
      assert IsPeak(p, k - 1, w);
    }
  }

  /** A window in (0, 1] compares exactly one sample on each side. */
  lemma SmallWindowSpan(room: nat, w: real)
    requires room >= 1 && 0.0 < w <= 1.0
    ensures Span(room, w) == 1
  {
  }

  /** With one compared sample per side the classification reduces to the two neighbours:
      an edge is then any index with a neighbour more than s away. */
  lemma NeighbourWindow(p: seq<real>, i: int, w: real, s: real)
    requires Interior(p, i) && BackSpan(p, i, w) == 1 && FwdSpan(p, i, w) == 1
    ensures IsPeak(p, i, w) <==> p[i - 1] < p[i] && p[i + 1] < p[i]
    ensures IsValley(p, i, w) <==> p[i - 1] > p[i] && p[i + 1] > p[i]
    ensures IsEdge(p, i, w, s) <==> Abs(p[i - 1] - p[i]) > s || Abs(p[i + 1] - p[i]) > s
  {
    assert SameSide(p, p[i], i - 1, i) && SameSide(p, p[i], i + 1, i + 2);
    assert Abs(p[i] - p[i - 1]) == Abs(p[i - 1] - p[i]);
    assert Abs(p[i] - p[i + 1]) == Abs(p[i + 1] - p[i]);
    assert AnyFar(p, p[i], s, i - 1, i) <==> Abs(p[i] - p[i - 1]) > s;
    assert AnyFar(p, p[i], s, i + 1, i + 2) <==> Abs(p[i] - p[i + 1]) > s;
  }

  /** One index of a strictly increasing series with a positive window. */
  lemma IncreasingAt(p: seq<real>, i: int, w: real, s: real)
    requires w > 0.0 && Interior(p, i)
    requires forall j, l :: 0 <= j < l < |p| ==> p[j] < p[l]
    ensures !IsExtremum(p, i, w)
    ensures IsEdge(p, i, w, s) <==> Abs(p[i - 1] - p[i]) > s || Abs(p[i + 1] - p[i]) > s
  {
    var b, f := BackSpan(p, i, w), FwdSpan(p, i, w);
    ScanLengthBound(RMin(i as real, w), 0);
    ScanLengthBound(RMin((|p| - 1 - i) as real, w), 0);
    assert b >= 1 && f >= 1;
    assert p[i - 1] < p[i] < p[i + 1];
    assert SameSide(p, p[i], i - b, i) by {
      assert forall j :: i - b <= j < i ==> p[j] < p[i];
    }
    assert SameSide(p, p[i], i + 1, i + 1 + f) by {
      assert forall j :: i + 1 <= j < i + 1 + f ==> p[i] < p[j];
    }
    if Abs(p[i - 1] - p[i]) > s {
      assert Abs(p[i] - p[i - 1]) > s;
      assert AnyFar(p, p[i], s, i - b, i);
    }
    if Abs(p[i + 1] - p[i]) > s {
      assert Abs(p[i] - p[i + 1]) > s;
      assert AnyFar(p, p[i], s, i + 1, i + 1 + f);
    }
    if Abs(p[i - 1] - p[i]) <= s && Abs(p[i + 1] - p[i]) <= s {
      assert !EdgeRight(p, i, w, s) && !EdgeLeft(p, i, w, s);
    }
  }

  /** In a strictly increasing series with a positive window no index is an extremum,
      and an interior index is an edge exactly when a neighbour differs by more than s. */
  lemma IncreasingSeries(p: seq<real>, w: real, s: real)
    requires w > 0.0
    requires forall j, l :: 0 <= j < l < |p| ==> p[j] < p[l]
    ensures Extrema(p, w) == []
    ensures forall i :: Interior(p, i) ==>
              (i in Edges(p, w, s) <==> Abs(p[i - 1] - p[i]) > s || Abs(p[i + 1] - p[i]) > s)
  {
    forall i | Interior(p, i)
      ensures !IsExtremum(p, i, w)
    {
      IncreasingAt(p, i, w, s);
    }
    NoExtremaBelow(p, w, |p|);
    forall i | Interior(p, i)
      ensures i in Edges(p, w, s) <==> Abs(p[i - 1] - p[i]) > s || Abs(p[i + 1] - p[i]) > s
    {
      IncreasingAt(p, i, w, s);
      EdgesBelowMembers(p, w, s, |p|);
    }
  }

  lemma {:induction false} NoExtremaBelow(p: seq<real>, w: real, k: int)
    requires forall i :: Interior(p, i) ==> !IsExtremum(p, i, w)
    ensures ExtremaBelow(p, w, k) == []
    decreases k
  {
    if k > 1 {
      NoExtremaBelow(p, w, k - 1);
    }
  }

  /** The series of the analyser's unit test. */
  const UnitTestPoints: seq<real> := [0.0, 0.0, 0.0, 5.0, 5.0, 7.0, 5.0, 0.0, 0.0, 0.0]

  /** The default fractions 0.05/0.05 give a window of 0.5 samples on this series,
      so each scan of an interior index compares its one neighbour. */
  lemma UnitTestAt(i: int)
    requires 1 <= i <= 8
    ensures IsPeak(UnitTestPoints, i, 0.5) <==>
              UnitTestPoints[i - 1] < UnitTestPoints[i] && UnitTestPoints[i + 1] < UnitTestPoints[i]
    ensures IsValley(UnitTestPoints, i, 0.5) <==>
              UnitTestPoints[i - 1] > UnitTestPoints[i] && UnitTestPoints[i + 1] > UnitTestPoints[i]
    ensures IsEdge(UnitTestPoints, i, 0.5, 0.05) <==>
              Abs(UnitTestPoints[i - 1] - UnitTestPoints[i]) > 0.05
              || Abs(UnitTestPoints[i + 1] - UnitTestPoints[i]) > 0.05
  {
    SmallWindowSpan(i, 0.5);
    SmallWindowSpan(|UnitTestPoints| - 1 - i, 0.5);
    NeighbourWindow(UnitTestPoints, i, 0.5, 0.05);
  }

  /** Which indices of the unit test's series are extrema and which are reported edges. */
  lemma UnitTestClassification(i: int)
    ensures IsExtremum(UnitTestPoints, i, 0.5) <==> i == 5
    ensures IsReportedEdge(UnitTestPoints, i, 0.5, 0.05) <==> 2 <= i <= 7
  {
    var p := UnitTestPoints;
    if 1 <= i <= 8 {
      UnitTestAt(i);
      if i == 1 {
        assert p[0] == 0.0 && p[1] == 0.0 && p[2] == 0.0;
      } else if i == 2 {
        assert p[1] == 0.0 && p[2] == 0.0 && p[3] == 5.0;
      } else if i == 3 {
        assert p[2] == 0.0 && p[3] == 5.0 && p[4] == 5.0;
      } else if i == 4 {
        assert p[3] == 5.0 && p[4] == 5.0 && p[5] == 7.0;
      } else if i == 5 {
        assert p[4] == 5.0 && p[5] == 7.0 && p[6] == 5.0;
      } else if i == 6 {
        assert p[5] == 7.0 && p[6] == 5.0 && p[7] == 0.0;
      } else if i == 7 {
        assert p[6] == 5.0 && p[7] == 0.0 && p[8] == 0.0;
      } else {
        assert p[7] == 0.0 && p[8] == 0.0 && p[9] == 0.0;
      }
    }
  }

  /** The unit test's expected results: a single peak at index 5, a positive
      starting sign, and the edges 2 through 7. */
  lemma UnitTestSeries()
    ensures Extrema(UnitTestPoints, WindowSize(0.05, |UnitTestPoints|)) == [5]
    ensures StartingSign(UnitTestPoints, WindowSize(0.05, |UnitTestPoints|)) == Positive
    ensures Edges(UnitTestPoints, WindowSize(0.05, |UnitTestPoints|), 0.05) == [2, 3, 4, 5, 6, 7]
  {
    var p, w, s := UnitTestPoints, 0.5, 0.05;
    assert WindowSize(0.05, |p|) == w;
    forall i ensures IsExtremum(p, i, w) <==> i == 5
      ensures IsReportedEdge(p, i, w, s) <==> 2 <= i <= 7
    {
      UnitTestClassification(i);
    }
    ExtremaBelowMembers(p, w, |p|);
    EdgesBelowMembers(p, w, s, |p|);
    BelowIncreasing(p, w, s, |p|);
    IncreasingRange(Extrema(p, w), 5, 6);
    IncreasingRange(Edges(p, w, s), 2, 8);
    assert IsPeak(p, 5, w) by { UnitTestAt(5); }
  }

  /** A strictly increasing sequence holding exactly the integers of [lo, hi) is lo, ..., hi - 1. */
  lemma {:induction false} IncreasingRange(r: seq<int>, lo: int, hi: int)
    requires lo <= hi
    requires forall j, l :: 0 <= j < l < |r| ==> r[j] < r[l]
    requires forall i :: i in r <==> lo <= i < hi
    ensures r == seq(hi - lo, j => lo + j)
    decreases hi - lo
  {
    assert |r| > 0 ==> r[0] in r;
    if hi > lo {
      assert hi - 1 in r;
      var n := |r|;
      var last := r[n - 1];
      assert last in r;
      assert forall k :: 0 <= k < n - 1 ==> r[k] < last;
      var init := r[..n - 1];
      forall i ensures i in init <==> lo <= i < hi - 1 {
        if i in init {
          var k :| 0 <= k < n - 1 && init[k] == i;
          assert r[k] == i && r[k] in r;
          assert r[k] < r[n - 1];
        }
        if lo <= i < hi - 1 {
          assert i in r;
          var k :| 0 <= k < n && r[k] == i;
          assert k != n - 1;
          assert init[k] == i;
        }
      }
      IncreasingRange(init, lo, hi - 1);
      assert r == init + [last];
    }
  }
}
