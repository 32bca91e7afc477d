/**
 * The wheel's fixed configuration and the angle arithmetic of its layout
 * (`initWheel` in major.js). Angles are degrees in the drawing's own
 * convention: 0 at three o'clock, increasing clockwise on screen. Each of the
 * 16 segments is a wedge of 22.5 degrees with a numbered label at its middle.
 */
module Layout {

  const TotalSegments: int := 16
  const SegmentAngle: real := 360.0 / TotalSegments as real

  /** The palette; segment `i` is filled with `Colors[SegmentAt(i).colorIndex]`. */
  const Colors: seq<string> := [
    "#FF5733", "#33FF57", "#3357FF", "#F333FF",
    "#FF33A1", "#33FFF5", "#F5FF33", "#FF8C33",
    "#8C33FF", "#33FF8C", "#FF3380", "#8033FF",
    "#33A1FF", "#A1FF33", "#EF4444", "#10B981"
  ]

  /** What one iteration of the layout loop computes for its segment, coordinates aside. */
  datatype Segment = Segment(
    startAngle: real,
    endAngle: real,
    midAngle: real,       // where the label is anchored
    labelRotation: real,  // the label's rotate(...) angle
    number: int,          // the number written on the segment
    colorIndex: int)      // the palette entry it is filled with

  function SegmentAt(i: nat): (s: Segment)
    ensures s.endAngle - s.startAngle == SegmentAngle
    ensures s.midAngle == (s.startAngle + s.endAngle) / 2.0
    ensures s.startAngle < s.midAngle < s.endAngle
    ensures 0 <= s.colorIndex < |Colors|
  {
    var startAngle := i as real * SegmentAngle;
    var endAngle := (i + 1) as real * SegmentAngle;
    var midAngle := startAngle + SegmentAngle / 2.0;
    Segment(startAngle, endAngle, midAngle, midAngle + 90.0, i + 1, i % |Colors|)
  }

  /** Angle `a` lies in segment `i`'s half-open span [start, end). */
  predicate InSegment(i: nat, a: real)
  {
    SegmentAt(i).startAngle <= a < SegmentAt(i).endAngle
  }

  /** The index of the segment whose span holds angle `a`: `Math.floor(a / segmentAngle)`. */
  function SegmentIndexOf(a: real): (i: int)
    requires 0.0 <= a < 360.0
    ensures 0 <= i < TotalSegments
  {
    (a / SegmentAngle).Floor
  }

  /** Each segment is one segment-angle wide, is labelled with its position counted from 1,
      carries its palette colour, and has its label anchor strictly inside its span. */
  lemma SegmentShape(i: nat)
    requires i < TotalSegments
    ensures SegmentAt(i).endAngle - SegmentAt(i).startAngle == 22.5
    ensures SegmentAt(i).startAngle == i as real * SegmentAngle
    ensures SegmentAt(i).midAngle == (SegmentAt(i).startAngle + SegmentAt(i).endAngle) / 2.0
    ensures SegmentAt(i).startAngle < SegmentAt(i).midAngle < SegmentAt(i).endAngle
    ensures SegmentAt(i).labelRotation == SegmentAt(i).midAngle + 90.0
    ensures SegmentAt(i).number == i + 1 && 1 <= SegmentAt(i).number <= TotalSegments
    ensures SegmentAt(i).colorIndex == i
  {
  }

  /** The segments tile [0, 360): the first starts at 0, the last ends at 360,
      and each ends exactly where the next one starts. */
  lemma SegmentsTile()
    ensures SegmentAt(0).startAngle == 0.0
    ensures SegmentAt(TotalSegments - 1).endAngle == 360.0
    ensures forall i: nat :: i + 1 < TotalSegments ==> SegmentAt(i).endAngle == SegmentAt(i + 1).startAngle
  {
  }

  /** Segment `i` holds angle `a` exactly when `i` is the floor-divided index of `a`:
      every angle of the circle lies in exactly one segment. */
  lemma SegmentContaining(i: nat, a: real)
    requires 0.0 <= a < 360.0 && i < TotalSegments
    ensures InSegment(i, a) <==> i == SegmentIndexOf(a)
  {
    assert SegmentAngle == 22.5;
  }

  /** No two segments overlap. */
  lemma SegmentsDisjoint(i: nat, j: nat, a: real)
    requires i < TotalSegments && j < TotalSegments
    requires InSegment(i, a) && InSegment(j, a)
    ensures i == j
  {
    SegmentContaining(i, a);
    SegmentContaining(j, a);
  }

  /**
   * The layout loop of `initWheel`: one segment per index, in order. The SVG
   * text it appends to is replaced by the sequence of computed segments.
   */
  method InitWheel() returns (segments: seq<Segment>)
    ensures |segments| == TotalSegments
    ensures forall i: nat :: i < |segments| ==> segments[i] == SegmentAt(i)
    ensures segments[0].startAngle == 0.0 && segments[TotalSegments - 1].endAngle == 360.0
    ensures forall i: nat :: i + 1 < |segments| ==> segments[i].endAngle == segments[i + 1].startAngle
    ensures forall i: nat :: i < |segments| ==> segments[i].number == i + 1 && segments[i].colorIndex == i
  {
    segments := [];
    var i := 0;
    while i < TotalSegments
      invariant 0 <= i <= TotalSegments
      invariant |segments| == i
      invariant forall j: nat :: j < i ==> segments[j] == SegmentAt(j)
    {
      segments := segments + [SegmentAt(i)];
      i := i + 1;
    }
    SegmentsTile();
    forall j: nat | j < |segments|
      ensures segments[j].number == j + 1 && segments[j].colorIndex == j
    {
      SegmentShape(j);
    }
  }
}
