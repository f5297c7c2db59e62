/**
 * `ofxOpenNILimb`: one skeletal segment between two joints, with its
 * projective endpoints (`begin`, `end`), real-world endpoints, the joint
 * orientation and a `found` flag. The joint identifiers (`J`) and the joint
 * orientation (`O`) are SDK types, kept abstract.
 */
module Limbs {
  import opened Geometry

  /** The value of a limb: what its fields hold at one moment. */
  datatype LimbState<J, O> = LimbState(
    startJoint: J,
    endJoint: J,
    orientation: O,
    begin: Point,
    end: Point,
    worldBegin: Point,
    worldEnd: Point,
    found: bool)

  /** What `set(nStartJoint, nEndJoint)` makes of a limb's state. */
  function Reset<J, O>(st: LimbState<J, O>, startJoint: J, endJoint: J): (r: LimbState<J, O>)
    // the new joints, not found, projective endpoints at the origin
    ensures r.startJoint == startJoint && r.endJoint == endJoint
    ensures !r.found
    ensures r.begin == Origin && r.end == Origin
    // the world endpoints and the orientation are left as they were
    ensures r.worldBegin == st.worldBegin && r.worldEnd == st.worldEnd
    ensures r.orientation == st.orientation
  {
    st.(startJoint := startJoint, endJoint := endJoint, found := false, begin := Origin, end := Origin)
  }

  /** Resetting twice with the same joints is resetting once. */
  lemma ResetIdempotent<J, O>(st: LimbState<J, O>, startJoint: J, endJoint: J)
    ensures Reset(Reset(st, startJoint, endJoint), startJoint, endJoint) == Reset(st, startJoint, endJoint)
  {
  }

  /** A reset forgets the joints and the geometry it had: only world endpoints and orientation survive. */
  lemma ResetDependsOnlyOnWorldAndOrientation<J, O>(a: LimbState<J, O>, b: LimbState<J, O>, startJoint: J, endJoint: J)
    requires a.worldBegin == b.worldBegin && a.worldEnd == b.worldEnd && a.orientation == b.orientation
    ensures Reset(a, startJoint, endJoint) == Reset(b, startJoint, endJoint)
  {
  }

  /** The drawing command `draw()` issues, in place of the graphics calls. */
  datatype DrawCommand =
    | Skip
    | FilledCircle(cx: real, cy: real, radius: real)
    | Line(from: Vec2, to: Vec2, width: real)

  /** Radius of the marker a single-joint limb is drawn as. */
  const MarkerRadius: real := 10.0

  /** Line width of a two-joint limb. */
  const LineWidth: real := 5.0

  /**
   * `draw()`: nothing for a limb that is not found; a filled circle at the
   * projective begin point for a limb whose two joints coincide; otherwise a
   * line between the two projective endpoints, depth dropped.
   */
  function Draw<J(==), O>(st: LimbState<J, O>): (c: DrawCommand)
    ensures c.Skip? <==> !st.found
    ensures c.FilledCircle? <==> st.found && st.startJoint == st.endJoint
    ensures c.Line? <==> st.found && st.startJoint != st.endJoint
    ensures c.FilledCircle? ==> c.cx == st.begin.x && c.cy == st.begin.y && c.radius == MarkerRadius
    ensures c.Line? ==> c.from == Project(st.begin) && c.to == Project(st.end) && c.width == LineWidth
  {
    if !st.found then Skip
    else if st.startJoint == st.endJoint then FilledCircle(st.begin.x, st.begin.y, MarkerRadius)
    else Line(Project(st.begin), Project(st.end), LineWidth)
  }

  /**
   * What is drawn depends only on `found`, the joints and the projective x
   * and y of the endpoints: never on depth, world coordinates or orientation.
   */
  lemma DrawUsesOnlyProjectiveGeometry<J, O>(a: LimbState<J, O>, b: LimbState<J, O>)
    requires a.found == b.found && (a.startJoint == a.endJoint <==> b.startJoint == b.endJoint)
    requires Project(a.begin) == Project(b.begin) && Project(a.end) == Project(b.end)
    ensures Draw(a) == Draw(b)
  {
  }

  /** A limb that was just reset draws nothing until the tracker finds it again. */
  lemma DrawAfterReset<J, O>(st: LimbState<J, O>, startJoint: J, endJoint: J)
    ensures Draw(Reset(st, startJoint, endJoint)) == Skip
  {
  }

  /** The limb object; the tracker writes its public fields directly. */
  class Limb<J(==), O(0)> {
    var startJoint: J
    var endJoint: J
    var orientation: O
    var begin: Point
    var end: Point
    var worldBegin: Point
    var worldEnd: Point
    var found: bool

    /** The limb's current value. */
    function State(): (st: LimbState<J, O>)
      reads this
      ensures st.startJoint == startJoint && st.endJoint == endJoint && st.orientation == orientation
      ensures st.begin == begin && st.end == end && st.worldBegin == worldBegin && st.worldEnd == worldEnd
      ensures st.found == found
    {
      LimbState(startJoint, endJoint, orientation, begin, end, worldBegin, worldEnd, found)
    }

    /**
     * The two-argument constructor: the given joints, not found. The four
     * `ofPoint` members are default-constructed, which is the origin; the
     * orientation is left uninitialised, so nothing is said about it.
     */
    constructor (nStartJoint: J, nEndJoint: J)
      ensures startJoint == nStartJoint && endJoint == nEndJoint && !found
      ensures begin == Origin && end == Origin && worldBegin == Origin && worldEnd == Origin
      ensures Draw(State()) == Skip
    {
      startJoint, endJoint, found := nStartJoint, nEndJoint, false;
      begin, end, worldBegin, worldEnd := Origin, Origin, Origin, Origin;
    }

    /** `set(nStartJoint, nEndJoint)`: the update `Reset` describes, in place. */
    method Set(nStartJoint: J, nEndJoint: J)
      modifies this
      ensures State() == Reset(old(State()), nStartJoint, nEndJoint)
      ensures startJoint == nStartJoint && endJoint == nEndJoint && !found
      ensures begin == Origin && end == Origin
      ensures unchanged(this`worldBegin, this`worldEnd, this`orientation)
      ensures Draw(State()) == Skip
    {
      startJoint := nStartJoint;
      endJoint := nEndJoint;
      found := false;
      begin := Origin;
      end := Origin;
      DrawAfterReset(old(State()), nStartJoint, nEndJoint);
    }
  }

  /** Two calls of `set` with the same joints leave the limb as one call does. */
  method SetTwice<J(==), O(0)>(limb: Limb<J, O>, nStartJoint: J, nEndJoint: J)
    modifies limb
    ensures limb.State() == Reset(old(limb.State()), nStartJoint, nEndJoint)
  {
    limb.Set(nStartJoint, nEndJoint);
    limb.Set(nStartJoint, nEndJoint);
    ResetIdempotent(old(limb.State()), nStartJoint, nEndJoint);
  }
}
