/**
  `DistanceSensor.get_distance`: estimates the distance to the lead vehicle
  from a semantic-segmentation image. Each row's count of pixels labelled
  "vehicle" is taken, the largest row count is the car's apparent width in
  pixels, and a pinhole projection turns that into metres.
 */
module DistanceSensor {
  import Shared

  /** The semantic label of vehicles. */
  const VehicleLabel: int := 10
  /** `FOCAL_LENGTH` of manual_control.py. */
  const FocalLength: real := 36.66184120297396

  /** A pixel of the raw image in BGRA order; the label sits in channel 2. */
  datatype Pixel = Pixel(blue: int, green: int, red: int, alpha: int)

  predicate IsVehicle(p: Pixel) {
    p.red == VehicleLabel
  }

  /** The number of vehicle pixels among the first j pixels of row i. */
  ghost function RowCount(image: array2<Pixel>, i: nat, j: nat): (n: nat)
    requires i < image.Length0 && j <= image.Length1
    reads image
    ensures n <= j
  {
    if j == 0 then 0 else RowCount(image, i, j - 1) + (if IsVehicle(image[i, j - 1]) then 1 else 0)
  }

  /** c is the largest per-row count of vehicle pixels (0 for an image with no rows). */
  ghost predicate WidestRow(image: array2<Pixel>, c: nat)
    reads image
  {
    && (forall i :: 0 <= i < image.Length0 ==> RowCount(image, i, image.Length1) <= c)
    && (c == 0 || exists i :: 0 <= i < image.Length0 && RowCount(image, i, image.Length1) == c)
  }

  /** The widest row count is unique. */
  lemma WidestRowUnique(image: array2<Pixel>, c1: nat, c2: nat)
    requires WidestRow(image, c1) && WidestRow(image, c2)
    ensures c1 == c2
  {
  }

  /**
    The two nested loops of `get_distance`: the largest per-row count of
    vehicle pixels, 0 for an image without any.
   */
  method PerceivedPixelCount(image: array2<Pixel>) returns (perceived: nat)
    ensures perceived <= image.Length1
    ensures WidestRow(image, perceived)
  {
    perceived := 0;
    var i := 0;
    while i < image.Length0
      invariant 0 <= i <= image.Length0
      invariant perceived <= image.Length1
      invariant forall r :: 0 <= r < i ==> RowCount(image, r, image.Length1) <= perceived
      invariant perceived == 0 || exists r :: 0 <= r < i && RowCount(image, r, image.Length1) == perceived
    {
      var vehiclePixels := 0;
      var j := 0;
      while j < image.Length1
        invariant 0 <= j <= image.Length1
        invariant vehiclePixels == RowCount(image, i, j)
      {
        if image[i, j].red == VehicleLabel {
          vehiclePixels := vehiclePixels + 1;
        }
        j := j + 1;
      }
      if perceived < vehiclePixels {
        perceived := vehiclePixels;
      }
      i := i + 1;
    }
  }

  /** The pinhole projection: an object `width` metres wide that spans `count` pixels. */
  function PinholeDistance(width: real, count: nat): (d: real)
    ensures count == 0 ==> d == 0.0
    ensures count > 0 ==> d * (count as real) == width * FocalLength
  {
    if count > 0 then (width * FocalLength) / (count as real) else 0.0
  }

  /** The more pixels the car spans, the closer it is; no pixels means "no vehicle", reported as 0. */
  lemma {:induction false} CloserWhenWider(width: real, c1: nat, c2: nat)
    requires width > 0.0 && 0 < c1 <= c2
    ensures 0.0 < PinholeDistance(width, c2) <= PinholeDistance(width, c1)
  {
    var w := width * FocalLength;
    var d1, d2 := PinholeDistance(width, c1), PinholeDistance(width, c2);
    assert w > 0.0;
    assert d1 * (c1 as real) == w && d2 * (c2 as real) == w;
    assert d2 > 0.0;
    assert d2 * (c1 as real) <= d2 * (c2 as real);
    assert d2 * (c1 as real) <= d1 * (c1 as real);
  }

  class DistanceSensor {
    /** Half the lead vehicle's bounding-box length (`extent.x`). */
    const leadExtentX: real

    constructor (leadExtentX: real)
      ensures this.leadExtentX == leadExtentX
    {
      this.leadExtentX := leadExtentX;
    }

    /**
      `get_distance`: the pinhole distance for the widest vehicle row, 0 when
      no vehicle pixel is seen; `g_distance` is set to the result.
     */
    method GetDistance(image: array2<Pixel>, g: Shared.Globals) returns (distance: real)
      modifies g`distance
      ensures g.distance == distance
      ensures exists count: nat :: WidestRow(image, count) && distance == PinholeDistance(leadExtentX * 2.0, count)
    {
      var perceived := PerceivedPixelCount(image);
      var width := leadExtentX * 2.0;
      if perceived > 0 {
        distance := (width * FocalLength) / (perceived as real);
        g.distance := distance;
      }
      if perceived == 0 {
        distance := 0.0;
        g.distance := distance;
      }
      assert WidestRow(image, perceived) && distance == PinholeDistance(width, perceived);
    }
  }
}
