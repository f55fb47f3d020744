/**
 * The tactile sensor front end: a single-slot cache of the latest sample
 * from the end effector, the sheer-force arrow and the line direction
 * drawn from it, and the conversion from sensor pixels to metres.
 *
 * Doubles are modelled as reals. The channel indices and ALWAYS_AT_END
 * come from the class header, which is not part of this model, so they
 * are fixed when the object is built. atan2 and getSheerForce are inputs.
 */
module Tactile {

  // ---------------------------------------------------------------------------
  // Channels of a sample
  // ---------------------------------------------------------------------------

  /** Where each quantity sits in a sample, and how many channels a sample has at least. */
  datatype Channels = Channels(
    lineCenterX: nat, lineCenterY: nat,
    lineEigenVecX: nat, lineEigenVecY: nat, lineEigenVal: nat,
    sheerDisplacementX: nat, sheerDisplacementY: nat,
    imageHeight: nat, imageWidth: nat,
    alwaysAtEnd: nat)
  {
    /** ALWAYS_AT_END closes the enumeration: every named channel lies below it. */
    predicate Fits()
    {
      && lineCenterX < alwaysAtEnd && lineCenterY < alwaysAtEnd
      && lineEigenVecX < alwaysAtEnd && lineEigenVecY < alwaysAtEnd && lineEigenVal < alwaysAtEnd
      && sheerDisplacementX < alwaysAtEnd && sheerDisplacementY < alwaysAtEnd
      && imageHeight < alwaysAtEnd && imageWidth < alwaysAtEnd
    }
  }

  // ---------------------------------------------------------------------------
  // Arithmetic
  // ---------------------------------------------------------------------------

  /** The conversion of a double to an int: truncation toward zero. */
  function Trunc(r: real): (t: int)
    ensures 0.0 <= r ==> 0 <= t && t as real <= r < t as real + 1.0
    ensures r < 0.0 ==> t <= 0 && t as real - 1.0 < r <= t as real
  {
    if 0.0 <= r then r.Floor else -((-r).Floor)
  }

  /** A pose's position. */
  datatype Position = Position(x: real, y: real, z: real)

  /** Width and height of the sensor pad in metres. */
  const WIDTH_OF_GELSIGHT: real := 0.01595
  const HEIGHT_OF_GELSIGHT: real := 0.01668

  /**
   * convertPixelToMeters: x scales by the pad width over the image width,
   * y by the pad height over the image height; z is left alone.
   */
  function PixelToMeters(p: Position, height: int, width: int): (q: Position)
    requires height != 0 && width != 0
    ensures q.z == p.z
    ensures q.x * width as real == WIDTH_OF_GELSIGHT * p.x
    ensures q.y * height as real == HEIGHT_OF_GELSIGHT * p.y
  {
    Position(WIDTH_OF_GELSIGHT * p.x / width as real, HEIGHT_OF_GELSIGHT * p.y / height as real, p.z)
  }

  /** The way back from metres to pixels. */
  function MetersToPixel(q: Position, height: int, width: int): Position
    requires height != 0 && width != 0
  {
    Position(q.x * width as real / WIDTH_OF_GELSIGHT, q.y * height as real / HEIGHT_OF_GELSIGHT, q.z)
  }

  /** No information is lost: converting back gives the pixel position again. */
  lemma PixelToMetersRoundTrip(p: Position, height: int, width: int)
    requires height != 0 && width != 0
    ensures MetersToPixel(PixelToMeters(p, height, width), height, width) == p
  {
    var q := PixelToMeters(p, height, width);
    assert q.x * width as real / WIDTH_OF_GELSIGHT == p.x;
    assert q.y * height as real / HEIGHT_OF_GELSIGHT == p.y;
  }

  /** The scale is the same for every point, so differences convert like points. */
  lemma PixelToMetersLinear(p1: Position, p2: Position, height: int, width: int)
    requires height != 0 && width != 0
    ensures PixelToMeters(p2, height, width).x - PixelToMeters(p1, height, width).x
         == WIDTH_OF_GELSIGHT * (p2.x - p1.x) / width as real
    ensures PixelToMeters(p2, height, width).y - PixelToMeters(p1, height, width).y
         == HEIGHT_OF_GELSIGHT * (p2.y - p1.y) / height as real
  {
    var w := width as real;
    var h := height as real;
    assert WIDTH_OF_GELSIGHT * p2.x / w - WIDTH_OF_GELSIGHT * p1.x / w == WIDTH_OF_GELSIGHT * (p2.x - p1.x) / w;
    assert HEIGHT_OF_GELSIGHT * p2.y / h - HEIGHT_OF_GELSIGHT * p1.y / h == HEIGHT_OF_GELSIGHT * (p2.y - p1.y) / h;
  }

  /** The longest arrow drawn, and the force it stands for. */
  const VISUAL_MAX_LENGTH: real := 0.5
  const SHEER_FORCE_MAX: real := 20.0

  /** The sheer-force arrow's length: the force, capped at its maximum, scaled to the longest arrow. */
  function ArrowLength(sheerForce: real): real
  {
    (if sheerForce < SHEER_FORCE_MAX then sheerForce else SHEER_FORCE_MAX) * (VISUAL_MAX_LENGTH / SHEER_FORCE_MAX)
  }

  /**
   * The arrow is never longer than the longest arrow, is proportional to the
   * force below the cap, and is the longest arrow from the cap on.
   */
  lemma ArrowLengthClamped(sheerForce: real)
    ensures ArrowLength(sheerForce) <= VISUAL_MAX_LENGTH
    ensures sheerForce <= SHEER_FORCE_MAX ==> ArrowLength(sheerForce) == sheerForce * 0.025
    ensures SHEER_FORCE_MAX <= sheerForce ==> ArrowLength(sheerForce) == VISUAL_MAX_LENGTH
    ensures 0.0 <= sheerForce ==> 0.0 <= ArrowLength(sheerForce)
  {
  }

  /** A growing force never draws a shorter arrow. */
  lemma ArrowLengthMonotone(f1: real, f2: real)
    requires f1 <= f2
    ensures ArrowLength(f1) <= ArrowLength(f2)
  {
  }

  /** M_PI as a real. */
  const PI: real := 3.141592653589793

  /**
   * The line direction of displayLineDirection: an angle above a quarter
   * turn is turned half a turn back, so the tool points away from the gripper.
   */
  function FoldLineAngle(theta: real): real
  {
    if theta > PI / 2.0 then theta - PI else theta
  }

  /**
   * For an angle in atan2's range the folded angle is at most a quarter turn,
   * stays in atan2's range, and names the same line (it differs by 0 or a half turn).
   */
  lemma FoldLineAngleBounded(theta: real)
    requires -PI <= theta <= PI
    ensures -PI <= FoldLineAngle(theta) <= PI / 2.0
    ensures FoldLineAngle(theta) == theta || FoldLineAngle(theta) == theta - PI
    ensures theta <= PI / 2.0 <==> FoldLineAngle(theta) == theta
  {
  }

  /** Folding an angle of atan2's range twice changes nothing more. */
  lemma FoldLineAngleIdempotent(theta: real)
    requires theta <= PI
    ensures FoldLineAngle(FoldLineAngle(theta)) == FoldLineAngle(theta)
  {
  }

  /** The angle of the drawn line: atan2 of the eigenvector, folded. */
  function LineAngle(channels: Channels, data: seq<real>, atan2: (real, real) -> real): (angle: real)
    requires channels.Fits() && |data| >= channels.alwaysAtEnd
    requires -PI <= atan2(data[channels.lineEigenVecY], data[channels.lineEigenVecX]) <= PI
    ensures -PI <= angle <= PI / 2.0
  {
    var theta := atan2(data[channels.lineEigenVecY], data[channels.lineEigenVecX]);
    FoldLineAngleBounded(theta);
    FoldLineAngle(theta)
  }

  /** The image size as the int arguments of convertPixelToMeters: both must be nonzero. */
  predicate ImageSized(channels: Channels, data: seq<real>)
    requires channels.Fits() && |data| >= channels.alwaysAtEnd
  {
    Trunc(data[channels.imageHeight]) != 0 && Trunc(data[channels.imageWidth]) != 0
  }

  /**
   * The sheer angle of displaySheerForce: atan2 of the displacement from the
   * image centre to the sheer point, both converted to metres.
   */
  function SheerTheta(channels: Channels, data: seq<real>, atan2: (real, real) -> real): real
    requires channels.Fits() && |data| >= channels.alwaysAtEnd && ImageSized(channels, data)
  {
    var height := Trunc(data[channels.imageHeight]);
    var width := Trunc(data[channels.imageWidth]);
    var centre := PixelToMeters(Position(data[channels.imageHeight] / 2.0, data[channels.imageWidth] / 2.0, 0.0), height, width);
    var sheer := PixelToMeters(Position(data[channels.sheerDisplacementX], data[channels.sheerDisplacementY], 0.0), height, width);
    atan2(sheer.y - centre.y, sheer.x - centre.x)
  }

  /** The sheer angle is atan2 of the pixel displacement, each axis scaled to metres. */
  lemma SheerThetaScaled(channels: Channels, data: seq<real>, atan2: (real, real) -> real)
    requires channels.Fits() && |data| >= channels.alwaysAtEnd && ImageSized(channels, data)
    ensures var height := Trunc(data[channels.imageHeight]);
            var width := Trunc(data[channels.imageWidth]);
            SheerTheta(channels, data, atan2) == atan2(
              HEIGHT_OF_GELSIGHT * (data[channels.sheerDisplacementY] - data[channels.imageWidth] / 2.0) / height as real,
              WIDTH_OF_GELSIGHT * (data[channels.sheerDisplacementX] - data[channels.imageHeight] / 2.0) / width as real)
  {
    var height := Trunc(data[channels.imageHeight]);
    var width := Trunc(data[channels.imageWidth]);
    PixelToMetersLinear(
      Position(data[channels.imageHeight] / 2.0, data[channels.imageWidth] / 2.0, 0.0),
      Position(data[channels.sheerDisplacementX], data[channels.sheerDisplacementY], 0.0),
      height, width);
  }

  // ---------------------------------------------------------------------------
  // The sample cache as a stream of samples
  // ---------------------------------------------------------------------------

  /** The cache after one sample arrives: a sample too short is dropped, any other replaces the cache. */
  function Receive(cache: seq<real>, data: seq<real>, alwaysAtEnd: nat): seq<real>
  {
    if |data| < alwaysAtEnd then cache else data
  }

  /** The cache after a stream of samples, the first one first. */
  function ReceiveAll(cache: seq<real>, samples: seq<seq<real>>, alwaysAtEnd: nat): seq<real>
    decreases |samples|
  {
    if samples == [] then cache
    else Receive(ReceiveAll(cache, samples[..|samples| - 1], alwaysAtEnd), samples[|samples| - 1], alwaysAtEnd)
  }

  /**
   * How many samples of a stream are accepted. With a callback registered
   * this is how often it fires (DataCallback adds AcceptedCount([data]) per
   * call); without one it never fires.
   */
  function AcceptedCount(samples: seq<seq<real>>, alwaysAtEnd: nat): (n: nat)
    ensures n <= |samples|
    decreases |samples|
  {
    if samples == [] then 0
    else
      var last := if |samples[|samples| - 1]| < alwaysAtEnd then 0 else 1;
      AcceptedCount(samples[..|samples| - 1], alwaysAtEnd) + last
  }

  /** Counting a stream one sample at a time: each call of dataCallback adds its own count. */
  lemma AcceptedCountStep(samples: seq<seq<real>>, data: seq<real>, alwaysAtEnd: nat)
    ensures AcceptedCount(samples + [data], alwaysAtEnd)
         == AcceptedCount(samples, alwaysAtEnd) + AcceptedCount([data], alwaysAtEnd)
  {
    assert (samples + [data])[..|samples|] == samples;
    assert [data][..0] == [];
  }

  /** A stream of samples all too short leaves the cache as it was. */
  lemma {:induction false} NothingAcceptedKeepsCache(cache: seq<real>, samples: seq<seq<real>>, alwaysAtEnd: nat)
    requires forall i :: 0 <= i < |samples| ==> |samples[i]| < alwaysAtEnd
    ensures ReceiveAll(cache, samples, alwaysAtEnd) == cache
    decreases |samples|
  {
    if samples != [] {
      var init := samples[..|samples| - 1];
      assert forall i :: 0 <= i < |init| ==> init[i] == samples[i];
      NothingAcceptedKeepsCache(cache, init, alwaysAtEnd);
    }
  }

  /**
   * Last write wins: after a stream the cache holds the last sample long
   * enough to be accepted, whatever came before it.
   */
  lemma {:induction false} LastAcceptedWins(cache: seq<real>, samples: seq<seq<real>>, alwaysAtEnd: nat, i: nat)
    requires i < |samples| && alwaysAtEnd <= |samples[i]|
    requires forall j :: i < j < |samples| ==> |samples[j]| < alwaysAtEnd
    ensures ReceiveAll(cache, samples, alwaysAtEnd) == samples[i]
    decreases |samples|
  {
    if i < |samples| - 1 {
      var init := samples[..|samples| - 1];
      assert forall j :: 0 <= j < |init| ==> init[j] == samples[j];
      LastAcceptedWins(cache, init, alwaysAtEnd, i);
    }
  }

  /** A cache with at least ALWAYS_AT_END entries keeps that many whatever arrives. */
  lemma {:induction false} ReceiveAllKeepsLength(cache: seq<real>, samples: seq<seq<real>>, alwaysAtEnd: nat)
    requires alwaysAtEnd <= |cache|
    ensures alwaysAtEnd <= |ReceiveAll(cache, samples, alwaysAtEnd)|
    decreases |samples|
  {
    if samples != [] {
      ReceiveAllKeepsLength(cache, samples[..|samples| - 1], alwaysAtEnd);
    }
  }

  /** No sample accepted means no callback fired; every accepted one fires it once. */
  lemma {:induction false} AcceptedCountNone(samples: seq<seq<real>>, alwaysAtEnd: nat)
    ensures AcceptedCount(samples, alwaysAtEnd) == 0 <==>
      forall i :: 0 <= i < |samples| ==> |samples[i]| < alwaysAtEnd
    ensures AcceptedCount(samples, alwaysAtEnd) == |samples| <==>
      forall i :: 0 <= i < |samples| ==> alwaysAtEnd <= |samples[i]|
    decreases |samples|
  {
    if samples != [] {
      var init := samples[..|samples| - 1];
      AcceptedCountNone(init, alwaysAtEnd);
      assert forall i :: 0 <= i < |init| ==> init[i] == samples[i];
    }
  }

  // ---------------------------------------------------------------------------
  // TactileFeedback
  // ---------------------------------------------------------------------------

  /**
   * The sensor front end: the latest accepted sample, the sheer angle drawn
   * from it, and how often the user callback has fired.
   */
  class TactileFeedback {
    const channels: Channels
    /** Whether a user callback was registered. */
    const hasCallback: bool
    var cache: seq<real>
    var sheerTheta: real
    /** How many times the user callback has fired. */
    var callbacks: nat

    /** The fixed-index reads of the display routines stay within the cache. */
    ghost predicate Valid()
      reads this
    {
      channels.Fits() && channels.alwaysAtEnd <= |cache|
    }

    /** The cache starts as ALWAYS_AT_END zeros and the sheer angle at zero. */
    constructor (channels: Channels, hasCallback: bool)
      requires channels.Fits()
      ensures Valid()
      ensures this.channels == channels && this.hasCallback == hasCallback
      ensures |cache| == channels.alwaysAtEnd && forall i :: 0 <= i < |cache| ==> cache[i] == 0.0
      ensures sheerTheta == 0.0 && callbacks == 0
    {
      this.channels := channels;
      this.hasCallback := hasCallback;
      cache := seq(channels.alwaysAtEnd, _ => 0.0);
      sheerTheta := 0.0;
      callbacks := 0;
    }

    /**
     * displaySheerForce: stores the sheer angle of the cached sample and
     * gives the length of the arrow drawn for `sheerForce`.
     */
    method DisplaySheerForce(atan2: (real, real) -> real, sheerForce: real) returns (length: real)
      requires Valid() && ImageSized(channels, cache)
      modifies this
      ensures Valid() && cache == old(cache) && callbacks == old(callbacks)
      ensures sheerTheta == SheerTheta(channels, cache, atan2)
      ensures length == ArrowLength(sheerForce) && length <= VISUAL_MAX_LENGTH
    {
      var height := Trunc(cache[channels.imageHeight]);
      var width := Trunc(cache[channels.imageWidth]);
      var centre := PixelToMeters(Position(cache[channels.imageHeight] / 2.0, cache[channels.imageWidth] / 2.0, 0.0), height, width);
      var sheer := PixelToMeters(Position(cache[channels.sheerDisplacementX], cache[channels.sheerDisplacementY], 0.0), height, width);
      sheerTheta := atan2(sheer.y - centre.y, sheer.x - centre.x);
      var force := if sheerForce < SHEER_FORCE_MAX then sheerForce else SHEER_FORCE_MAX;
      length := force * (VISUAL_MAX_LENGTH / SHEER_FORCE_MAX);
      ArrowLengthClamped(sheerForce);
    }

    /**
     * dataCallback: a sample shorter than ALWAYS_AT_END is dropped and nothing
     * changes; any other replaces the cache wholesale, the sheer angle is
     * redrawn from it and the user callback, when registered, fires once.
     */
    method DataCallback(data: seq<real>, atan2: (real, real) -> real, sheerForce: real)
      requires Valid()
      requires channels.alwaysAtEnd <= |data| ==> ImageSized(channels, data)
      modifies this
      ensures Valid()
      ensures cache == Receive(old(cache), data, channels.alwaysAtEnd)
      ensures |data| < channels.alwaysAtEnd ==> sheerTheta == old(sheerTheta) && callbacks == old(callbacks)
      ensures channels.alwaysAtEnd <= |data| ==>
        sheerTheta == SheerTheta(channels, data, atan2)
        && callbacks == old(callbacks) + (if hasCallback then 1 else 0)
      ensures callbacks == old(callbacks) + (if hasCallback then AcceptedCount([data], channels.alwaysAtEnd) else 0)
    {
      if |data| < channels.alwaysAtEnd {
        return;
      }
      cache := data;
      var _ := DisplaySheerForce(atan2, sheerForce);
      if hasCallback {
        callbacks := callbacks + 1;
      }
    }
  }
}
