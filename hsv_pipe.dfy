/**
 * HSVPipe: thresholding a colour image in HSV space. A pixel passes when
 * each channel lies within its inclusive bounds; with the hue inverted the
 * hue window is split in two, [upper, 180] and [0, lower], OR-ed together.
 */
module Hsv {
  /** The first three channels of an OpenCV Scalar: hue, saturation, value. */
  datatype Scalar = Scalar(h: int, s: int, v: int)

  datatype IntegerCouple = IntegerCouple(first: int, second: int)

  datatype HSVParams = HSVParams(hsvLower: Scalar, hsvUpper: Scalar, hueInverted: bool)

  /** The largest hue OpenCV uses for 8-bit images. */
  const MaxHue := 180

  /** The couple constructor: lower bounds from the firsts, upper bounds from the seconds. */
  function FromCouples(hue: IntegerCouple, saturation: IntegerCouple, value: IntegerCouple, hueInverted: bool): (r: HSVParams)
    ensures HueCouple(r) == hue && SaturationCouple(r) == saturation && ValueCouple(r) == value
    ensures r.hueInverted == hueInverted
  {
    HSVParams(Scalar(hue.first, saturation.first, value.first), Scalar(hue.second, saturation.second, value.second), hueInverted)
  }

  function HueCouple(p: HSVParams): IntegerCouple { IntegerCouple(p.hsvLower.h, p.hsvUpper.h) }
  function SaturationCouple(p: HSVParams): IntegerCouple { IntegerCouple(p.hsvLower.s, p.hsvUpper.s) }
  function ValueCouple(p: HSVParams): IntegerCouple { IntegerCouple(p.hsvLower.v, p.hsvUpper.v) }

  /** Building params from the couples they hold gives them back. */
  lemma CouplesRoundTrip(p: HSVParams)
    ensures FromCouples(HueCouple(p), SaturationCouple(p), ValueCouple(p), p.hueInverted) == p
  {
  }

  /** Core.inRange on one pixel: every channel within its inclusive bounds. */
  predicate InRange(px: Scalar, lower: Scalar, upper: Scalar) {
    && lower.h <= px.h <= upper.h
    && lower.s <= px.s <= upper.s
    && lower.v <= px.v <= upper.v
  }

  /** What a pixel must satisfy to pass, stated on the bounds alone. */
  predicate Passes(p: HSVParams, px: Scalar) {
    var lo, hi := p.hsvLower, p.hsvUpper;
    && (if p.hueInverted then hi.h <= px.h <= MaxHue || 0 <= px.h <= lo.h else lo.h <= px.h <= hi.h)
    && lo.s <= px.s <= hi.s
    && lo.v <= px.v <= hi.v
  }

  /** inRange over a whole image, one mask entry per pixel. */
  function Mask(image: seq<Scalar>, lower: Scalar, upper: Scalar): (r: seq<bool>)
    ensures |r| == |image|
    ensures forall i :: 0 <= i < |image| ==> (r[i] <==> InRange(image[i], lower, upper))
  {
    seq(|image|, i requires 0 <= i < |image| => InRange(image[i], lower, upper))
  }

  /** Core.bitwise_or of two masks of the same size. */
  function Or(a: seq<bool>, b: seq<bool>): (r: seq<bool>)
    requires |a| == |b|
    ensures |r| == |a|
    ensures forall i :: 0 <= i < |a| ==> (r[i] <==> a[i] || b[i])
  {
    seq(|a|, i requires 0 <= i < |a| => a[i] || b[i])
  }

  /**
   * process: the image (already converted to HSV) is thresholded. Inverted,
   * two patched copies of the bounds give two masks that are OR-ed; the
   * params themselves are values and are not changed.
   */
  method Process(p: HSVParams, image: seq<Scalar>) returns (mask: seq<bool>)
    ensures |mask| == |image|
    ensures forall i :: 0 <= i < |image| ==> (mask[i] <==> Passes(p, image[i]))
  {
    if p.hueInverted {
      var firstLower := p.hsvLower;
      var firstUpper := p.hsvUpper;
      firstLower := firstLower.(h := p.hsvUpper.h);
      firstUpper := firstUpper.(h := MaxHue);
      var lowerThreshold := Mask(image, firstLower, firstUpper);
      var secondLower := p.hsvLower;
      var secondUpper := p.hsvUpper;
      secondLower := secondLower.(h := 0);
      secondUpper := secondUpper.(h := p.hsvLower.h);
      mask := Mask(image, secondLower, secondUpper);
      mask := Or(lowerThreshold, mask);
    } else {
      mask := Mask(image, p.hsvLower, p.hsvUpper);
    }
  }

  /** Not inverted, passing is exactly inRange of the bounds. */
  lemma PlainIsInRange(p: HSVParams, px: Scalar)
    requires !p.hueInverted
    ensures Passes(p, px) <==> InRange(px, p.hsvLower, p.hsvUpper)
  {
  }

  /** Inverted, the four boundary hues pass whenever saturation and value do. */
  lemma InvertedBoundaryHuesPass(p: HSVParams, px: Scalar)
    requires p.hueInverted && 0 <= p.hsvLower.h && p.hsvUpper.h <= MaxHue
    requires px.h == 0 || px.h == p.hsvLower.h || px.h == p.hsvUpper.h || px.h == MaxHue
    requires p.hsvLower.s <= px.s <= p.hsvUpper.s && p.hsvLower.v <= px.v <= p.hsvUpper.v
    ensures Passes(p, px)
  {
  }

  /** Inverted, a hue strictly between the two hue bounds is rejected. */
  lemma InvertedGapRejected(p: HSVParams, px: Scalar)
    requires p.hueInverted && p.hsvLower.h < px.h < p.hsvUpper.h
    ensures !Passes(p, px)
  {
  }

  /**
   * The flag alone decides inversion, not the order of the hue bounds: with
   * crossed hue bounds, clear flag rejects every pixel, set flag accepts
   * every hue in [0, 180] whose saturation and value pass.
   */
  lemma FlagAloneDecides(p: HSVParams, px: Scalar)
    requires p.hsvLower.h > p.hsvUpper.h
    ensures !p.hueInverted ==> !Passes(p, px)
    ensures p.hueInverted ==>
              (Passes(p, px) <== 0 <= px.h <= MaxHue && p.hsvLower.s <= px.s <= p.hsvUpper.s && p.hsvLower.v <= px.v <= p.hsvUpper.v)
  {
  }
}
