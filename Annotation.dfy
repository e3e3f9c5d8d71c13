/**
 * Drawing the recognition results on a full-size frame: every face location
 * found on the quarter-size frame is scaled back up, padded, outlined, and
 * given a filled label band with its display label.
 */
module Annotation {
  import opened Types

  datatype Point = Point(x: int, y: int)

  /** A colour in the B, G, R channel order of the video library. */
  datatype Colour = Colour(blue: int, green: int, red: int)

  datatype Font = HersheyComplex

  /** One call into the video library's drawing primitives. */
  datatype DrawCall =
    | Rectangle(corner: Point, oppositeCorner: Point, colour: Colour, thickness: int)
    | Text(text: string, origin: Point, font: Font, scale: real, colour: Colour, thickness: int)

  const Blue := Colour(255, 0, 0)
  const White := Colour(255, 255, 255)
  /** The thickness the video library reads as "fill the rectangle". */
  const Filled := -1
  /** Locations are found on a frame shrunk by this factor in each direction. */
  const ScaleFactor := 4
  const Padding := 20
  const BandHeight := 35
  const TextInset := 6

  /** A location on the shrunk frame, scaled back to the full frame and padded outwards. */
  function PaddedBox(b: Box): (r: Box)
    ensures Upright(b) ==> Upright(r)
    ensures r.bottom - r.top == ScaleFactor * (b.bottom - b.top) + 2 * Padding
    ensures r.right - r.left == ScaleFactor * (b.right - b.left) + 2 * Padding
    ensures r.top < ScaleFactor * b.top && ScaleFactor * b.bottom < r.bottom
    ensures r.left < ScaleFactor * b.left && ScaleFactor * b.right < r.right
  {
    Box(b.top * ScaleFactor - Padding, b.right * ScaleFactor + Padding,
        b.bottom * ScaleFactor + Padding, b.left * ScaleFactor - Padding)
  }

  /** The three drawing calls for one face: outline, label band, label text. */
  function FaceDrawing(b: Box, name: string): seq<DrawCall>
  {
    var p := PaddedBox(b);
    [ Rectangle(Point(p.left, p.top), Point(p.right, p.bottom), Blue, 2),
      Rectangle(Point(p.left, p.bottom - BandHeight), Point(p.right, p.bottom), Blue, Filled),
      Text(name, Point(p.left + TextInset, p.bottom - TextInset), HersheyComplex, 0.8, White, 1) ]
  }

  /** A box whose edges are in order: top above bottom, left of right. */
  predicate Upright(b: Box)
  {
    b.top <= b.bottom && b.left <= b.right
  }

  /** The example of a location (10, 20, 30, 5) on the shrunk frame. */
  lemma PaddedBoxExample()
    ensures PaddedBox(Box(10, 20, 30, 5)) == Box(20, 100, 140, 0)
  {
  }

  /**
   * The three calls for any location, upright or not: a blue outline two
   * pixels thick around the scaled-up location padded by 20 pixels, a blue
   * band filled 35 pixels up from the outline's bottom edge, and the label in
   * white, the complex Hershey font at scale 0.8 and thickness 1, with its
   * origin 6 pixels right of the outline's left edge and 6 pixels above its
   * bottom edge.
   */
  lemma FaceDrawingCalls(b: Box, name: string)
    ensures FaceDrawing(b, name) ==
      [ Rectangle(Point(4 * b.left - 20, 4 * b.top - 20), Point(4 * b.right + 20, 4 * b.bottom + 20),
                  Colour(255, 0, 0), 2),
        Rectangle(Point(4 * b.left - 20, 4 * b.bottom + 20 - 35), Point(4 * b.right + 20, 4 * b.bottom + 20),
                  Colour(255, 0, 0), -1),
        Text(name, Point(4 * b.left - 20 + 6, 4 * b.bottom + 20 - 6), HersheyComplex, 0.8,
             Colour(255, 255, 255), 1) ]
  {
  }

  /**
   * For an upright location: the outline encloses the scaled-up location with
   * a 20-pixel margin on every side; the label band runs along the outline's
   * bottom edge, 35 pixels high and as wide as the outline, and lies inside
   * it; the label text starts inside the band, 6 pixels in from its left and
   * bottom edges.
   */
  lemma FaceDrawingLayout(b: Box, name: string)
    requires Upright(b)
    ensures var d := FaceDrawing(b, name);
      && |d| == 3
      && d[0].Rectangle? && d[0].thickness > 0
      && d[0].corner == Point(ScaleFactor * b.left - Padding, ScaleFactor * b.top - Padding)
      && d[0].oppositeCorner == Point(ScaleFactor * b.right + Padding, ScaleFactor * b.bottom + Padding)
      && d[1].Rectangle? && d[1].thickness == Filled
      && d[1].corner.x == d[0].corner.x && d[1].oppositeCorner == d[0].oppositeCorner
      && d[1].oppositeCorner.y - d[1].corner.y == BandHeight
      && d[0].corner.y < d[1].corner.y
      && d[2].Text? && d[2].text == name
      && d[1].corner.x < d[2].origin.x < d[1].oppositeCorner.x
      && d[1].corner.y < d[2].origin.y < d[1].oppositeCorner.y
  {
  }

  /** The drawing calls for the first `count` (location, name) pairs, in order. */
  function AnnotationsUpTo(locations: seq<Box>, labels: seq<string>, count: nat): seq<DrawCall>
    requires count <= |locations| && count <= |labels|
  {
    if count == 0 then []
    else AnnotationsUpTo(locations, labels, count - 1)
         + FaceDrawing(locations[count - 1], labels[count - 1])
  }

  function Min(a: nat, b: nat): nat
  {
    if a < b then a else b
  }

  /** `zip(locations, labels)`: as many pairs as the shorter list has entries. */
  function Annotations(locations: seq<Box>, labels: seq<string>): seq<DrawCall>
  {
    AnnotationsUpTo(locations, labels, Min(|locations|, |labels|))
  }

  lemma {:induction false} AnnotationsUpToShape(locations: seq<Box>, labels: seq<string>, count: nat)
    requires count <= |locations| && count <= |labels|
    ensures |AnnotationsUpTo(locations, labels, count)| == 3 * count
    ensures forall i :: 0 <= i < count ==>
              AnnotationsUpTo(locations, labels, count)[3 * i..3 * i + 3]
              == FaceDrawing(locations[i], labels[i])
  {
    if count > 0 {
      AnnotationsUpToShape(locations, labels, count - 1);
      var before := AnnotationsUpTo(locations, labels, count - 1);
      var all := AnnotationsUpTo(locations, labels, count);
      forall i | 0 <= i < count
        ensures all[3 * i..3 * i + 3] == FaceDrawing(locations[i], labels[i])
      {
        if i < count - 1 {
          assert all[3 * i..3 * i + 3] == before[3 * i..3 * i + 3];
        }
      }
    }
  }

  /**
   * One outline, band and text per (location, name) pair, in order, up to the
   * shorter of the two lists; anything beyond it in the longer list is not drawn.
   */
  lemma AnnotationsShape(locations: seq<Box>, labels: seq<string>)
    ensures |Annotations(locations, labels)| == 3 * Min(|locations|, |labels|)
    ensures forall i :: 0 <= i < |locations| && i < |labels| ==>
              Annotations(locations, labels)[3 * i..3 * i + 3] == FaceDrawing(locations[i], labels[i])
  {
    AnnotationsUpToShape(locations, labels, Min(|locations|, |labels|));
  }

  /** A frame as the drawing primitives see it: the calls made on it so far. */
  class Frame {
    var drawn: seq<DrawCall>

    /** A frame fresh from the capture device, with nothing drawn on it. */
    constructor ()
      ensures drawn == []
    {
      drawn := [];
    }

    method Draw(call: DrawCall)
      modifies this
      ensures drawn == old(drawn) + [call]
    {
      drawn := drawn + [call];
    }
  }
}
