/**
 * `ofxOpenNIHand`: a tracked hand. Its fields are private to the SDK wrapper
 * (a friend class writes them directly); everyone else reads them through
 * four accessors that change nothing.
 */
module Hands {
  import opened Geometry
  import opened Integers

  class Hand {
    var id: UserId
    var position: Point
    var worldPosition: Point
    var tracking: bool

    /**
     * `ofxOpenNIHand()`: the two `ofPoint` members are default-constructed,
     * which is the origin; the id and the tracking flag are left
     * uninitialised, so nothing is said about them.
     */
    constructor ()
      ensures position == Origin && worldPosition == Origin
    {
      position, worldPosition := Origin, Origin;
    }

    /** `getID()`. */
    method GetID() returns (r: UserId)
      ensures r == id
    {
      r := id;
    }

    /** `getPosition()`: the projective position. */
    method GetPosition() returns (r: Point)
      ensures r == position
    {
      r := position;
    }

    /** `getWorldPosition()`: the real-world position. */
    method GetWorldPosition() returns (r: Point)
      ensures r == worldPosition
    {
      r := worldPosition;
    }

    /** `isTracking()`. */
    method IsTracking() returns (r: bool)
      ensures r == tracking
    {
      r := tracking;
    }
  }
}
