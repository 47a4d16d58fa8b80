/**
 * The satellite indices and their classification: NDVI and NDMI as normalised differences of two
 * bands (element by element, with numpy's broadcasting of a one-element band), and the bucket
 * shares of an index image that decide crop health and water stress. Fetching images is not part
 * of this model; an image is a flat sequence of pixel values.
 */
module SatelliteProcessing {
  import opened Wrappers
  import opened Stats

  // ------------------------------------------------------------------------------------------
  // Indices
  // ------------------------------------------------------------------------------------------

  /** numpy combines two bands of equal length, or a one-element band with any band. */
  predicate Broadcastable(a: seq<real>, b: seq<real>)
  {
    |a| == |b| || |a| == 1 || |b| == 1
  }

  function BroadcastLength(a: seq<real>, b: seq<real>): nat
  {
    if |a| == 1 then |b| else |a|
  }

  /** The value a band contributes at position i: its only element, when it has one. */
  function At(a: seq<real>, i: nat): real
    requires |a| == 1 || i < |a|
  {
    if |a| == 1 then a[0] else a[i]
  }

  predicate NonNegative(a: seq<real>)
  {
    forall i :: 0 <= i < |a| ==> a[i] >= 0.0
  }

  lemma RatioBounds(p: real, q: real)
    requires q > 0.0
    ensures -q <= p <= q ==> -1.0 <= p / q <= 1.0
  {
  }

  /** One pixel of (x - y) / (x + y), where x + y is positive; 0 elsewhere. */
  function PixelIndex(x: real, y: real): (v: real)
    ensures x + y > 0.0 ==> v * (x + y) == x - y
    ensures x + y <= 0.0 ==> v == 0.0
    ensures x >= 0.0 && y >= 0.0 ==> -1.0 <= v <= 1.0
  {
    if x + y > 0.0 then
      RatioBounds(x - y, x + y);
      (x - y) / (x + y)
    else 0.0
  }

  /**
   * The normalised difference of two bands: NDVI from near-infrared and red, NDMI from
   * near-infrared and short-wave infrared. Bands numpy cannot combine make the computation fail
   * (None).
   */
  function NormalizedDifference(a: seq<real>, b: seq<real>): (r: Option<seq<real>>)
    ensures r.None? <==> !Broadcastable(a, b)
    ensures r.Some? ==> |r.value| == BroadcastLength(a, b)
    ensures r.Some? ==> forall i :: 0 <= i < |r.value| ==> r.value[i] == PixelIndex(At(a, i), At(b, i))
    ensures r.Some? && NonNegative(a) && NonNegative(b) ==> forall i :: 0 <= i < |r.value| ==> -1.0 <= r.value[i] <= 1.0
  {
    if !Broadcastable(a, b) then None
    else
      var n := BroadcastLength(a, b);
      var r := seq(n, i requires 0 <= i < n => PixelIndex(At(a, i), At(b, i)));
      assert forall i :: 0 <= i < n ==> r[i] == PixelIndex(At(a, i), At(b, i));
      Some(r)
  }

  /** Exchanging the two bands negates every pixel of the index. */
  lemma NormalizedDifferenceAntisymmetric(a: seq<real>, b: seq<real>)
    requires Broadcastable(a, b)
    ensures NormalizedDifference(b, a).Some?
    ensures |NormalizedDifference(b, a).value| == |NormalizedDifference(a, b).value|
    ensures forall i :: 0 <= i < |NormalizedDifference(a, b).value| ==>
      NormalizedDifference(b, a).value[i] == -NormalizedDifference(a, b).value[i]
  {
    var ab := NormalizedDifference(a, b).value;
    var ba := NormalizedDifference(b, a).value;
    forall i | 0 <= i < |ab|
      ensures ba[i] == -ab[i]
    {
      var x, y := At(a, i), At(b, i);
      if x + y > 0.0 {
        NegatedQuotient(x - y, x + y);
        assert y - x == -(x - y) && y + x == x + y;
      }
    }
  }

  /** Negating the numerator negates the quotient. */
  lemma NegatedQuotient(p: real, q: real)
    requires q != 0.0
    ensures (-p) / q == -(p / q)
  {
    assert (-p) / q * q == -p;
  }

  // ------------------------------------------------------------------------------------------
  // Bucket shares
  // ------------------------------------------------------------------------------------------

  /** The percentage of pixels below a, in [a, b), in [b, c) and at least c. */
  datatype Shares = Shares(lowest: real, lower: real, upper: real, highest: real)

  /**
   * The four shares of an image, None for an image without pixels (numpy's 0 / 0 is NaN, and
   * every comparison with it is false).
   */
  function SharesOf(xs: seq<real>, a: real, b: real, c: real): (s: Option<Shares>)
    requires a <= b <= c
    ensures s.None? <==> xs == []
    ensures s.Some? ==> s.value.lowest + s.value.lower + s.value.upper + s.value.highest == 100.0
    ensures s.Some? ==> 0.0 <= s.value.lowest && 0.0 <= s.value.lower && 0.0 <= s.value.upper && 0.0 <= s.value.highest
    ensures s.Some? ==> (s.value.lowest == Percentage(CountBelow(xs, a), |xs|)
      && s.value.lower == Percentage(CountFrom(xs, a, b), |xs|)
      && s.value.upper == Percentage(CountFrom(xs, b, c), |xs|)
      && s.value.highest == Percentage(CountAtLeast(xs, c), |xs|))
  {
    if xs == [] then None
    else
      var n := |xs|;
      CountsPartitionFour(xs, a, b, c);
      FourPercentagesSumToHundred(CountBelow(xs, a), CountFrom(xs, a, b), CountFrom(xs, b, c), CountAtLeast(xs, c), n);
      PercentageNonNegative(CountBelow(xs, a), n);
      PercentageNonNegative(CountFrom(xs, a, b), n);
      PercentageNonNegative(CountFrom(xs, b, c), n);
      PercentageNonNegative(CountAtLeast(xs, c), n);
      Some(Shares(
        Percentage(CountBelow(xs, a), n), Percentage(CountFrom(xs, a, b), n),
        Percentage(CountFrom(xs, b, c), n), Percentage(CountAtLeast(xs, c), n)))
  }

  lemma PercentageNonNegative(count: nat, n: nat)
    requires n > 0
    ensures Percentage(count, n) >= 0.0
  {
  }

  /** The mean of a non-empty image, None (NaN) for an empty one. */
  function Average(xs: seq<real>): (m: Option<real>)
    ensures m.None? <==> xs == []
    ensures m.Some? ==> Min(xs) <= m.value <= Max(xs)
  {
    if xs == [] then None
    else
      MeanBetweenMinAndMax(xs);
      Some(Mean(xs))
  }

  // ------------------------------------------------------------------------------------------
  // Crop health
  // ------------------------------------------------------------------------------------------

  datatype HealthStatus = Excellent | Good | Fair | Poor

  /** Checked in order: more than 60 % excellent, good, then fair pixels; otherwise poor. */
  function HealthStatusOf(s: Option<Shares>): (h: HealthStatus)
    ensures h == Excellent <==> s.Some? && s.value.highest > 60.0
    ensures h == Good <==> s.Some? && !(s.value.highest > 60.0) && s.value.upper > 60.0
    ensures h == Fair <==> s.Some? && !(s.value.highest > 60.0) && !(s.value.upper > 60.0) && s.value.lower > 60.0
  {
    match s
    case None => Poor
    case Some(v) =>
      if v.highest > 60.0 then Excellent
      else if v.upper > 60.0 then Good
      else if v.lower > 60.0 then Fair
      else Poor
  }

  /**
   * Crop health of an NDVI image: the shares of poor (< 0.2), fair ([0.2, 0.4)), good
   * ([0.4, 0.6)) and excellent (>= 0.6) pixels, the status they decide and the mean NDVI.
   */
  datatype CropHealth = CropHealth(status: HealthStatus, shares: Option<Shares>, averageNdvi: Option<real>)

  function AnalyzeCropHealth(ndvi: seq<real>): (h: CropHealth)
    ensures h.shares.None? <==> ndvi == []
    ensures h.shares.Some? ==> (h.shares.value.highest == Percentage(CountAtLeast(ndvi, 0.6), |ndvi|)
      && h.shares.value.upper == Percentage(CountFrom(ndvi, 0.4, 0.6), |ndvi|)
      && h.shares.value.lower == Percentage(CountFrom(ndvi, 0.2, 0.4), |ndvi|)
      && h.shares.value.lowest == Percentage(CountBelow(ndvi, 0.2), |ndvi|))
    ensures h.status == HealthStatusOf(h.shares)
    ensures h.averageNdvi == Average(ndvi)
    ensures ndvi == [] ==> h.status == Poor
  {
    var shares := SharesOf(ndvi, 0.2, 0.4, 0.6);
    CropHealth(HealthStatusOf(shares), shares, Average(ndvi))
  }

  /**
   * Since the shares add up to 100, at most one of them exceeds 60 %: the order of the checks
   * does not matter, and each status holds exactly when its own bucket is above 60 %.
   */
  lemma HealthStatusIsMajorityBucket(ndvi: seq<real>)
    ensures var h := AnalyzeCropHealth(ndvi);
      && (h.status == Excellent <==> h.shares.Some? && h.shares.value.highest > 60.0)
      && (h.status == Good <==> h.shares.Some? && h.shares.value.upper > 60.0)
      && (h.status == Fair <==> h.shares.Some? && h.shares.value.lower > 60.0)
      && (h.status == Poor <==> (h.shares.None? || (h.shares.value.highest <= 60.0
            && h.shares.value.upper <= 60.0 && h.shares.value.lower <= 60.0)))
  {
  }

  // ------------------------------------------------------------------------------------------
  // Water stress
  // ------------------------------------------------------------------------------------------

  datatype StressStatus = SevereStress | ModerateStress | LowStress | NoStress

  /** Checked in order: more than 30 % severe, moderate, then low-stress pixels; otherwise none. */
  function StressStatusOf(s: Option<Shares>): (w: StressStatus)
    ensures w == SevereStress <==> s.Some? && s.value.lowest > 30.0
    ensures w == ModerateStress <==> s.Some? && !(s.value.lowest > 30.0) && s.value.lower > 30.0
    ensures w == LowStress <==> s.Some? && !(s.value.lowest > 30.0) && !(s.value.lower > 30.0) && s.value.upper > 30.0
  {
    match s
    case None => NoStress
    case Some(v) =>
      if v.lowest > 30.0 then SevereStress
      else if v.lower > 30.0 then ModerateStress
      else if v.upper > 30.0 then LowStress
      else NoStress
  }

  /**
   * Water stress of an NDMI image: the shares of severe (< 0), moderate ([0, 0.2)), low
   * ([0.2, 0.4)) and no-stress (>= 0.4) pixels, the status they decide and the mean NDMI.
   */
  datatype WaterStress = WaterStress(status: StressStatus, shares: Option<Shares>, averageNdmi: Option<real>)

  function DetectWaterStress(ndmi: seq<real>): (w: WaterStress)
    ensures w.shares.None? <==> ndmi == []
    ensures w.shares.Some? ==> (w.shares.value.lowest == Percentage(CountBelow(ndmi, 0.0), |ndmi|)
      && w.shares.value.lower == Percentage(CountFrom(ndmi, 0.0, 0.2), |ndmi|)
      && w.shares.value.upper == Percentage(CountFrom(ndmi, 0.2, 0.4), |ndmi|)
      && w.shares.value.highest == Percentage(CountAtLeast(ndmi, 0.4), |ndmi|))
    ensures w.status == StressStatusOf(w.shares)
    ensures w.averageNdmi == Average(ndmi)
    ensures ndmi == [] ==> w.status == NoStress
  {
    var shares := SharesOf(ndmi, 0.0, 0.2, 0.4);
    WaterStress(StressStatusOf(shares), shares, Average(ndmi))
  }

  /** More than 70 % of pixels at NDMI 0.4 or above leaves no room for any stress status. */
  lemma MostlyMoistImageHasNoStress(ndmi: seq<real>)
    requires ndmi != [] && Percentage(CountAtLeast(ndmi, 0.4), |ndmi|) > 70.0
    ensures DetectWaterStress(ndmi).status == NoStress
  {
  }

  /**
   * Unlike the health buckets, two stress buckets can both pass 30 %: an image half severe and
   * half moderate is reported as severe.
   */
  lemma SevereStressTakesPrecedence()
    ensures var w := DetectWaterStress([-0.1, 0.1]);
      w.shares.value.lowest > 30.0 && w.shares.value.lower > 30.0 && w.status == SevereStress
  {
    var xs := [-0.1, 0.1];
    assert xs[..1] == [-0.1];
    assert [-0.1][..0] == [];
    assert CountBelow(xs, 0.0) == 1;
    assert CountFrom(xs, 0.0, 0.2) == 1;
  }
}
