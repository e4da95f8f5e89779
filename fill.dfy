/**
 * The fill-percentage computation of `measureAndPublishFillLevel`, common to
 * the combined and the fill-only sketch; they differ only in the bin height
 * and the default they substitute for a rejected reading.
 */
module Fill {

  /**
   * The value published for a ranger reading `reading` (cm from the sensor to
   * the trash surface) in a bin `height` cm deep: the default when the reading
   * is not positive (the -1 sentinel included) or lies below the bin bottom;
   * otherwise `((height - reading) / height) * 100`, clamped to [0, 100].
   */
  function FillPercentage(height: real, default: real, reading: real): (pct: real)
    requires height > 0.0
    ensures reading <= 0.0 || reading > height ==> pct == default
    ensures 0.0 < reading <= height ==> 0.0 <= pct < 100.0
    // On every accepted reading the clamp is inert: the value is the raw formula.
    ensures 0.0 < reading <= height ==> pct == (height - reading) / height * 100.0
  {
    if reading <= 0.0 || reading > height then default
    else
      var raw := (height - reading) / height * 100.0;
      var atLeastZero := if raw < 0.0 then 0.0 else raw;
      if atLeastZero > 100.0 then 100.0 else atLeastZero
  }

  /** A default inside [0, 100] keeps every published value inside [0, 100]. */
  lemma FillPercentageInRange(height: real, default: real, reading: real)
    requires height > 0.0 && 0.0 <= default <= 100.0
    ensures 0.0 <= FillPercentage(height, default, reading) <= 100.0
  {
  }

  /** A reading at the bin bottom is an empty bin. */
  lemma EmptyAtBinBottom(height: real, default: real)
    requires height > 0.0
    ensures FillPercentage(height, default, height) == 0.0
  {
  }

  /**
   * Among accepted readings, a nearer surface (smaller distance) is a fuller
   * bin, strictly.
   */
  lemma FillDecreasesWithDistance(height: real, default: real, r1: real, r2: real)
    requires height > 0.0 && 0.0 < r1 < r2 <= height
    ensures FillPercentage(height, default, r1) > FillPercentage(height, default, r2)
  {
    var p1 := FillPercentage(height, default, r1);
    var p2 := FillPercentage(height, default, r2);
    assert p1 - p2 == (r2 - r1) / height * 100.0;
  }
}
