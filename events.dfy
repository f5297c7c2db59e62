/**
 * The event records the tracker hands to application callbacks: gesture,
 * hand and user events. Each is a plain record whose constructor copies its
 * arguments into its fields, so each is a datatype here. The status
 * enumerations belong to the sensor SDK and are type parameters.
 */
module Events {
  import opened Geometry
  import opened Integers

  /** `ofxOpenNIGestureEvent`, built by its seven-argument constructor. */
  datatype GestureEvent<GestureStatus> = GestureEvent(
    deviceID: Int32,
    gestureName: string,
    gestureStatus: GestureStatus,
    progress: real,
    position: Point,
    worldPosition: Point,
    timestampMillis: Int32)

  /** `ofxOpenNIHandEvent`, built by its six-argument constructor. */
  datatype HandEvent<HandStatus> = HandEvent(
    deviceID: Int32,
    handStatus: HandStatus,
    id: UserId,
    position: Point,
    worldPosition: Point,
    timestampMillis: Int32)

  /** `ofxOpenNIUserEvent`, built by its four-argument constructor. */
  datatype UserEvent<UserStatus> = UserEvent(
    deviceID: Int32,
    userStatus: UserStatus,
    id: UserId,
    timestampMillis: Int32)

  /** Every field of a constructed gesture event reads back its argument. */
  lemma GestureEventRoundTrip<S>(deviceID: Int32, gestureName: string, gestureStatus: S, progress: real,
                                 position: Point, worldPosition: Point, timestampMillis: Int32)
    ensures var e := GestureEvent(deviceID, gestureName, gestureStatus, progress, position, worldPosition, timestampMillis);
      && e.deviceID == deviceID && e.gestureName == gestureName && e.gestureStatus == gestureStatus
      && e.progress == progress && e.position == position && e.worldPosition == worldPosition
      && e.timestampMillis == timestampMillis
  {
  }

  /** Every field of a constructed hand event reads back its argument. */
  lemma HandEventRoundTrip<S>(deviceID: Int32, handStatus: S, id: UserId,
                              position: Point, worldPosition: Point, timestampMillis: Int32)
    ensures var e := HandEvent(deviceID, handStatus, id, position, worldPosition, timestampMillis);
      && e.deviceID == deviceID && e.handStatus == handStatus && e.id == id
      && e.position == position && e.worldPosition == worldPosition && e.timestampMillis == timestampMillis
  {
  }

  /** Every field of a constructed user event reads back its argument. */
  lemma UserEventRoundTrip<S>(deviceID: Int32, userStatus: S, id: UserId, timestampMillis: Int32)
    ensures var e := UserEvent(deviceID, userStatus, id, timestampMillis);
      && e.deviceID == deviceID && e.userStatus == userStatus && e.id == id
      && e.timestampMillis == timestampMillis
  {
  }

  /** Rebuilding a gesture event from its fields gives the same event. */
  lemma GestureEventRebuild<S>(e: GestureEvent<S>)
    ensures GestureEvent(e.deviceID, e.gestureName, e.gestureStatus, e.progress,
                         e.position, e.worldPosition, e.timestampMillis) == e
  {
  }

  /** Rebuilding a hand event from its fields gives the same event. */
  lemma HandEventRebuild<S>(e: HandEvent<S>)
    ensures HandEvent(e.deviceID, e.handStatus, e.id, e.position, e.worldPosition, e.timestampMillis) == e
  {
  }

  /** Rebuilding a user event from its fields gives the same event. */
  lemma UserEventRebuild<S>(e: UserEvent<S>)
    ensures UserEvent(e.deviceID, e.userStatus, e.id, e.timestampMillis) == e
  {
  }
}
