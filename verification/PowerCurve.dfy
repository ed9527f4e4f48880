/**
 Marginal power of a node: the slope of its instance type's power curve at the node's utilisation.
 */
module PowerCurve {
  import opened Prelude

  datatype Sample = Sample(util: real, power: real)

  datatype CurveError = BadCores | TooFewSamples | BadUtil | DuplicateUtil | NoSegment

  predicate Sorted(s: seq<Sample>) {
    forall i, j :: 0 <= i < j < |s| ==> s[i].util <= s[j].util
  }

  predicate InUnitRange(s: seq<Sample>) {
    forall i :: 0 <= i < |s| ==> 0.0 <= s[i].util <= 1.0
  }

  function Insert(x: Sample, s: seq<Sample>): seq<Sample> {
    if s == [] || x.util < s[0].util then [x] + s else [s[0]] + Insert(x, s[1..])
  }

  /** The samples in order of utilisation. */
  function SortSamples(s: seq<Sample>): seq<Sample> {
    if s == [] then [] else Insert(s[|s| - 1], SortSamples(s[..|s| - 1]))
  }

  lemma {:induction false} InsertKeeps(x: Sample, s: seq<Sample>)
    ensures multiset(Insert(x, s)) == multiset(s) + multiset{x}
    ensures |Insert(x, s)| == |s| + 1
    ensures forall y :: y in Insert(x, s) ==> y == x || y in s
  {
    if s != [] && x.util >= s[0].util {
      InsertKeeps(x, s[1..]);
      assert s == [s[0]] + s[1..];
    }
  }

  lemma {:induction false} InsertSorts(x: Sample, s: seq<Sample>)
    requires Sorted(s)
    ensures Sorted(Insert(x, s))
  {
    if s != [] && x.util >= s[0].util {
      var rest := Insert(x, s[1..]);
      InsertSorts(x, s[1..]);
      InsertKeeps(x, s[1..]);
      assert forall j :: 0 <= j < |rest| ==> rest[j] in rest;
    }
  }

  lemma {:induction false} SortSamplesSorts(s: seq<Sample>)
    ensures Sorted(SortSamples(s)) && multiset(SortSamples(s)) == multiset(s) && |SortSamples(s)| == |s|
  {
    if s != [] {
      var rest := SortSamples(s[..|s| - 1]);
      SortSamplesSorts(s[..|s| - 1]);
      InsertSorts(s[|s| - 1], rest);
      InsertKeeps(s[|s| - 1], rest);
      assert s == s[..|s| - 1] + [s[|s| - 1]];
    }
  }

  /** Slope of segment i in watts per unit of utilisation. */
  function SegmentSlope(s: seq<Sample>, i: nat): real
    requires i + 1 < |s| && s[i].util != s[i + 1].util
  {
    (s[i + 1].power - s[i].power) / (s[i + 1].util - s[i].util)
  }

  function SlopePerCore(s: seq<Sample>, i: nat, cores: real): Result<real, CurveError>
    requires i + 1 < |s| && cores > 0.0
  {
    if s[i + 1].util - s[i].util <= 0.0 then Err(DuplicateUtil) else Ok(SegmentSlope(s, i) / cores)
  }

  /** The first segment from i on that contains util. */
  function FindSegment(s: seq<Sample>, util: real, i: nat): Option<nat>
    requires i < |s|
    decreases |s| - i
  {
    if i + 1 >= |s| then None
    else if s[i].util <= util <= s[i + 1].util then Some(i)
    else FindSegment(s, util, i + 1)
  }

  /** Watts per core at util, on samples that are already sorted. */
  function WattsOnSorted(s: seq<Sample>, util: real, cores: real): Result<real, CurveError> {
    if cores <= 0.0 then Err(BadCores)
    else if |s| < 2 then Err(TooFewSamples)
    else if !InUnitRange(s) then Err(BadUtil)
    else if util <= s[0].util then SlopePerCore(s, 0, cores)
    else if util >= s[|s| - 1].util then SlopePerCore(s, |s| - 2, cores)
    else
      match FindSegment(s, util, 0)
      case None => Err(NoSegment)
      case Some(i) => if i + 1 < |s| then SlopePerCore(s, i, cores) else Err(NoSegment)
  }

  function MarginalWatts(samples: seq<Sample>, util: real, cores: real): Result<real, CurveError> {
    WattsOnSorted(SortSamples(samples), util, cores)
  }

  method CheckRange(s: seq<Sample>) returns (ok: bool)
    ensures ok <==> InUnitRange(s)
  {
    for i := 0 to |s|
      invariant forall k :: 0 <= k < i ==> 0.0 <= s[k].util <= 1.0
    {
      if s[i].util < 0.0 || s[i].util > 1.0 {
        return false;
      }
    }
    return true;
  }

  method SearchSegment(s: seq<Sample>, util: real) returns (found: Option<nat>)
    requires s != []
    ensures found == FindSegment(s, util, 0)
    ensures found.Some? ==> found.value + 1 < |s|
  {
    for i := 0 to |s| - 1
      invariant FindSegment(s, util, 0) == FindSegment(s, util, i)
    {
      if util >= s[i].util && util <= s[i + 1].util {
        return Some(i);
      }
    }
    return None;
  }

  method MarginalWattsPerCore(samples: seq<Sample>, util: real, cores: real) returns (r: Result<real, CurveError>)
    ensures r == MarginalWatts(samples, util, cores)
  {
    if cores <= 0.0 {
      return Err(BadCores);
    }
    SortSamplesSorts(samples);
    if |samples| < 2 {
      return Err(TooFewSamples);
    }
    r := WattsSearch(SortSamples(samples), util, cores);
  }

  method WattsSearch(s: seq<Sample>, util: real, cores: real) returns (r: Result<real, CurveError>)
    requires cores > 0.0 && |s| >= 2
    ensures r == WattsOnSorted(s, util, cores)
  {
    var ok := CheckRange(s);
    if !ok {
      return Err(BadUtil);
    }
    if util <= s[0].util {
      return SlopePerCore(s, 0, cores);
    }
    if util >= s[|s| - 1].util {
      return SlopePerCore(s, |s| - 2, cores);
    }
    var found := SearchSegment(s, util);
    return if found.Some? then SlopePerCore(s, found.value, cores) else Err(NoSegment);
  }

  // ------------------------------------------------------------------ totality of the search

  lemma {:induction false} SegmentExists(s: seq<Sample>, util: real, i: nat)
    requires Sorted(s) && i < |s| && s[i].util < util < s[|s| - 1].util
    ensures FindSegment(s, util, i).Some?
    ensures var k := FindSegment(s, util, i).value;
            i <= k && k + 1 < |s| && s[k].util < util <= s[k + 1].util
    decreases |s| - i
  {
    if util > s[i + 1].util {
      SegmentExists(s, util, i + 1);
    }
  }

  /** Strictly inside the range of any sorted curve the search finds a segment, and that segment is never
      of zero width, duplicate samples or not. */
  lemma InteriorSlopeIsDefined(s: seq<Sample>, util: real, cores: real)
    requires Sorted(s) && |s| >= 2 && InUnitRange(s) && cores > 0.0
    requires s[0].util < util < s[|s| - 1].util
    ensures WattsOnSorted(s, util, cores).Ok?
    ensures exists k :: 0 <= k && k + 1 < |s| && s[k].util < util <= s[k + 1].util &&
              WattsOnSorted(s, util, cores) == Ok(SegmentSlope(s, k) / cores)
  {
    SegmentExists(s, util, 0);
    var k := FindSegment(s, util, 0).value;
    assert WattsOnSorted(s, util, cores) == Ok(SegmentSlope(s, k) / cores);
  }

  /** Exactly when the result is an error: bad input, or utilisation at or beyond an end whose first
      (or last) two samples coincide. */
  lemma ErrorsExactly(s: seq<Sample>, util: real, cores: real)
    requires Sorted(s)
    ensures WattsOnSorted(s, util, cores).Err? <==>
              || cores <= 0.0 || |s| < 2 || !InUnitRange(s)
              || (util <= s[0].util && s[0].util == s[1].util)
              || (util > s[0].util && util >= s[|s| - 1].util && s[|s| - 2].util == s[|s| - 1].util)
  {
    if cores > 0.0 && |s| >= 2 && InUnitRange(s) && s[0].util < util < s[|s| - 1].util {
      InteriorSlopeIsDefined(s, util, cores);
    }
  }

  // ------------------------------------------------------------------ convex curves

  predicate StrictlySorted(s: seq<Sample>) {
    forall i, j :: 0 <= i < j < |s| ==> s[i].util < s[j].util
  }

  predicate Convex(s: seq<Sample>)
    requires StrictlySorted(s)
  {
    forall i, j :: 0 <= i < j && j + 1 < |s| ==> SegmentSlope(s, i) <= SegmentSlope(s, j)
  }

  /** The segment whose slope the search uses. */
  function SegmentUsed(s: seq<Sample>, util: real): nat
    requires StrictlySorted(s) && |s| >= 2
    ensures SegmentUsed(s, util) + 1 < |s|
  {
    if util <= s[0].util then 0
    else if util >= s[|s| - 1].util then |s| - 2
    else SegmentExists(s, util, 0); FindSegment(s, util, 0).value
  }

  lemma SegmentUsedMonotone(s: seq<Sample>, u: real, v: real)
    requires StrictlySorted(s) && |s| >= 2 && u <= v
    ensures SegmentUsed(s, u) <= SegmentUsed(s, v)
  {
    if s[0].util < u && v < s[|s| - 1].util {
      SegmentExists(s, u, 0);
      SegmentExists(s, v, 0);
      var i, j := SegmentUsed(s, u), SegmentUsed(s, v);
      assert s[i].util < s[j + 1].util;
    } else if s[0].util < u < s[|s| - 1].util {
      SegmentExists(s, u, 0);
    }
  }

  /** On a convex curve with distinct utilisations marginal power never falls as utilisation rises, over
      all of [0,1] and beyond. */
  lemma ConvexMarginalIsMonotone(s: seq<Sample>, u: real, v: real, cores: real)
    requires StrictlySorted(s) && |s| >= 2 && InUnitRange(s) && Convex(s) && cores > 0.0 && u <= v
    ensures WattsOnSorted(s, u, cores).Ok? && WattsOnSorted(s, v, cores).Ok?
    ensures WattsOnSorted(s, u, cores).value <= WattsOnSorted(s, v, cores).value
  {
    SegmentUsedMonotone(s, u, v);
    UsesSegment(s, u, cores);
    UsesSegment(s, v, cores);
    var a, b := SegmentSlope(s, SegmentUsed(s, u)), SegmentSlope(s, SegmentUsed(s, v));
    DivideMonotone(a, b, cores);
  }

  lemma UsesSegment(s: seq<Sample>, util: real, cores: real)
    requires StrictlySorted(s) && |s| >= 2 && InUnitRange(s) && cores > 0.0
    ensures WattsOnSorted(s, util, cores) == Ok(SegmentSlope(s, SegmentUsed(s, util)) / cores)
  {
    if s[0].util < util < s[|s| - 1].util {
      SegmentExists(s, util, 0);
    }
  }

  lemma DivideMonotone(a: real, b: real, c: real)
    requires a <= b && c > 0.0
    ensures a / c <= b / c
  {
    var k := b - a;
    assert b / c == a / c + k / c;
    if k / c < 0.0 {
      assert (k / c) * c == k;
    }
  }

  // ------------------------------------------------------------------ the slope on the fields

  lemma {:induction false} InsertLast(x: Sample, s: seq<Sample>)
    requires forall y :: y in s ==> y.util <= x.util
    ensures Insert(x, s) == s + [x]
  {
    if s != [] {
      InsertLast(x, s[1..]);
    }
  }

  /** Samples that are in order stay as they are. */
  lemma {:induction false} SortedStays(s: seq<Sample>)
    requires Sorted(s)
    ensures SortSamples(s) == s
  {
    if s != [] {
      SortedStays(s[..|s| - 1]);
      InsertLast(s[|s| - 1], s[..|s| - 1]);
    }
  }

  /** The segment that counts at a utilisation: the one that ends at or after it, the first one below the curve, the
      last one beyond it. */
  predicate SegmentAt(s: seq<Sample>, util: real, k: nat) {
    && k + 1 < |s|
    && (if util <= s[0].util then k == 0
        else if util >= s[|s| - 1].util then k + 2 == |s|
        else s[k].util < util <= s[k + 1].util)
  }

  /** w watts per core is the slope of segment k, for so many cores. */
  predicate IsSlope(s: seq<Sample>, k: nat, cores: real, w: real)
    requires k + 1 < |s|
  {
    && s[k].util < s[k + 1].util
    && w * cores * (s[k + 1].util - s[k].util) == s[k + 1].power - s[k].power
  }

  lemma SlopeOfQuotient(s: seq<Sample>, k: nat, cores: real, w: real)
    requires k + 1 < |s| && cores > 0.0 && SlopePerCore(s, k, cores) == Ok(w)
    ensures IsSlope(s, k, cores, w)
  {
    var d, p := s[k + 1].util - s[k].util, s[k + 1].power - s[k].power;
    assert w * cores == p / d;
    assert p / d * d == p;
  }

  /** The watts per core at a utilisation, on samples given in order, are the slope of the segment that counts there,
      divided by the cores. */
  lemma SlopeExactly(s: seq<Sample>, util: real, cores: real, w: real) returns (k: nat)
    requires Sorted(s) && MarginalWatts(s, util, cores) == Ok(w)
    ensures SegmentAt(s, util, k) && IsSlope(s, k, cores, w) && cores > 0.0
  {
    SortedStays(s);
    if util <= s[0].util {
      k := 0;
    } else if util >= s[|s| - 1].util {
      k := |s| - 2;
    } else {
      SegmentExists(s, util, 0);
      k := FindSegment(s, util, 0).value;
    }
    SlopeOfQuotient(s, k, cores, w);
  }

  /** Each segment is at least as steep as those before it. */
  predicate Steepening(s: seq<Sample>) {
    forall i, j :: 0 <= i < j && j + 1 < |s| ==>
      (s[i + 1].power - s[i].power) * (s[j + 1].util - s[j].util) <= (s[j + 1].power - s[j].power) * (s[i + 1].util - s[i].util)
  }

  lemma QuotientsCompare(p: real, d: real, q: real, e: real)
    requires d > 0.0 && e > 0.0 && p * e <= q * d
    ensures p / d <= q / e
  {
    var x, y := p / d, q / e;
    assert x * d == p && y * e == q;
    assert x * d * e <= y * e * d;
  }

  lemma SteepeningIsConvex(s: seq<Sample>)
    requires StrictlySorted(s) && Steepening(s)
    ensures Convex(s)
  {
    forall i, j | 0 <= i < j && j + 1 < |s| ensures SegmentSlope(s, i) <= SegmentSlope(s, j) {
      QuotientsCompare(s[i + 1].power - s[i].power, s[i + 1].util - s[i].util,
                       s[j + 1].power - s[j].power, s[j + 1].util - s[j].util);
    }
  }
}
