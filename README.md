# ofxOpenNI tracking types in Dafny

A model of the value and entity types that the ofxOpenNI addon (an
openFrameworks wrapper around the OpenNI depth-sensor SDK) declares in
`src/ofxOpenNITypes.h`:

- `ofxOpenNILimb` (`limb.dfy`, module `Limbs`). This is a skeletal segment between two joints. It is modelled as a class `Limb` with the same public fields. `State()` gives the limb's value as a `LimbState` record. The two-argument constructor and `set` are modelled. `set` is tied to the pure function `Reset`: it sets the joints, clears `found`, and moves the projective endpoints to the origin. It leaves the world endpoints and the orientation alone. `draw()` is modelled as the pure function `Draw`. It returns the command the method would issue: nothing, a filled circle of radius 10 at the begin point, or a line of width 5 between the two projective endpoints.
- The event records `ofxOpenNIGestureEvent`, `ofxOpenNIHandEvent` and `ofxOpenNIUserEvent` (`events.dfy`, module `Events`). They are datatypes whose constructors copy their arguments into the fields.
- `ofxOpenNIHand` (`hand.dfy`, module `Hands`). It is a class with its default constructor and the four read accessors.
- The `ofxOpenNIUser::Limb` enumeration (`user.dfy`, module `Users`, datatype `LimbId`). It has an ordinal function and its inverse. It also has the lookup of a user's limb by enumerator in a vector of `NumLimbs` limbs, plus a checked lookup by raw integer index.
- `ofPoint` and `ofVec2f` are the records `Point` and `Vec2` (`geometry.dfy`, module `Geometry`). Their coordinates are reals, because nothing here computes with them.

The SDK types `XnSkeletonJoint` and `XnSkeletonJointOrientation` are the type parameters `J` and `O` of the limb. The status enumerations `GestureStatusType`, `HandStatusType` and `UserStatusType` are type parameters of the event records. `XnUserID` is a 32-bit unsigned newtype. The C++ `int` fields are a 32-bit signed newtype. Both integer types are in `integers.dfy` (module `Integers`).

## Model

| member | source | states |
|---|---|---|
| Geometry.Project | src/ofxOpenNITypes.h:153 | turning a point into a 2D vector keeps x and y (and drops z) |
| Geometry.ProjectIgnoresDepth | src/ofxOpenNITypes.h:153 | two points have the same 2D projection exactly when their x and y agree |
| Events.GestureEventRoundTrip | src/ofxOpenNITypes.h:47-69 | each of the seven fields of a constructed gesture event reads back the argument given for it |
| Events.HandEventRoundTrip | src/ofxOpenNITypes.h:102-110 | each of the six fields of a constructed hand event reads back its argument |
| Events.UserEventRoundTrip | src/ofxOpenNITypes.h:279-285 | each of the four fields of a constructed user event reads back its argument |
| Events.GestureEventRebuild | src/ofxOpenNITypes.h:47-69 | a gesture event is determined by its seven fields: rebuilding it from them gives the same event |
| Events.HandEventRebuild | src/ofxOpenNITypes.h:102-110 | a hand event is determined by its six fields |
| Events.UserEventRebuild | src/ofxOpenNITypes.h:279-285 | a user event is determined by its four fields |
| Hands.Hand.constructor | src/ofxOpenNITypes.h:77-93 | a new hand's projective and world positions are the origin (default-constructed `ofPoint`s); its id and tracking flag are left unconstrained |
| Hands.Hand.GetID | src/ofxOpenNITypes.h:79 | returns the hand's id and changes nothing |
| Hands.Hand.GetPosition | src/ofxOpenNITypes.h:80 | returns the hand's projective position and changes nothing |
| Hands.Hand.GetWorldPosition | src/ofxOpenNITypes.h:81 | returns the hand's real-world position and changes nothing |
| Hands.Hand.IsTracking | src/ofxOpenNITypes.h:83 | returns the hand's tracking flag and changes nothing |
| Limbs.Reset | src/ofxOpenNITypes.h:125-131 | after `set`: the new joints, not found, both projective endpoints at the origin; world endpoints and orientation as before |
| Limbs.ResetIdempotent | src/ofxOpenNITypes.h:125-131 | `set` twice with the same joints gives the same state as once |
| Limbs.ResetDependsOnlyOnWorldAndOrientation | src/ofxOpenNITypes.h:125-131 | the state after `set` depends only on the new joints, the world endpoints and the orientation, not on the old joints, endpoints or flag |
| Limbs.Draw | src/ofxOpenNITypes.h:145-156 | no command exactly when not found; a filled circle of radius 10 at (begin.x, begin.y) exactly when found and the joints coincide; otherwise a line of width 5 from begin to end with z dropped |
| Limbs.DrawUsesOnlyProjectiveGeometry | src/ofxOpenNITypes.h:145-156 | the command depends only on `found`, on whether the joints coincide, and on the projective x and y of the endpoints; it never depends on depth, world endpoints or orientation |
| Limbs.DrawAfterReset | src/ofxOpenNITypes.h:125-146 | a limb just `set` draws nothing, whatever it held before |
| Limbs.Limb.State | src/ofxOpenNITypes.h:133-143 | the limb's value holds exactly the eight public fields |
| Limbs.Limb.constructor | src/ofxOpenNITypes.h:120-121 | the given joints, `found` false, the four points default-constructed to the origin; the orientation is left unconstrained; the new limb draws nothing |
| Limbs.Limb.Set | src/ofxOpenNITypes.h:125-131 | the new state is `Reset` of the old one: joints replaced, not found, `begin` and `end` at the origin; `worldBegin`, `worldEnd` and `orientation` unchanged; the limb then draws nothing |
| Limbs.SetTwice | src/ofxOpenNITypes.h:125-131 | calling `set` twice with the same joints on a limb object leaves the state one call leaves |
| Users.Ordinal | src/ofxOpenNITypes.h:164-199 | each enumerator has a value below `NumLimbs` (19), and only `Head` has value 0 |
| Users.OrdinalOfAllLimbs | src/ofxOpenNITypes.h:164-199 | the declaration lists 19 limbs and the i-th of them has value i |
| Users.AllLimbsAtOrdinal | src/ofxOpenNITypes.h:164-199 | each enumerator stands in the declaration at the position given by its value |
| Users.OrdinalsIncrease | src/ofxOpenNITypes.h:164-199 | values strictly increase in declaration order |
| Users.OrdinalInjective | src/ofxOpenNITypes.h:164-199 | two enumerators have the same value exactly when they are the same enumerator |
| Users.FromOrdinal | src/ofxOpenNITypes.h:164-199 | an integer names an enumerator exactly when it is in [0, NumLimbs), and then it names the one with that value |
| Users.EnumeratorValue | src/ofxOpenNITypes.h:164-199 | under the C++ rule (first enumerator takes its initializer, each next one is one more), an enumerator's value lies in [first, first + count) and names its first position in the declaration |
| Users.OrdinalIsEnumeratorValue | src/ofxOpenNITypes.h:164-199 | `Ordinal` gives, for every limb, the value the C++ rule assigns in the declaration `Head = 0, ..., Hip`; the sentinel `NumLimbs` after `Hip` is 19 |
| Users.FromOrdinalOfOrdinal | src/ofxOpenNITypes.h:164-199 | value-of then enumerator-of gives back the enumerator |
| Users.GetLimb | src/ofxOpenNITypes.h:227-248 | in a vector of `NumLimbs` limbs the index of every enumerator `Head` to `Hip` is in bounds; the header only declares `getLimb`, so the lookup returning the element at that index is an assumed body |
| Users.LimbAt | src/ofxOpenNITypes.h:164-248 | lookup by raw integer gives the element at that index for indices in [0, NumLimbs), and nothing for every other index |
| Users.LimbAtOrdinal | src/ofxOpenNITypes.h:227-248 | looking up an enumerator's value finds the same limb as looking up the enumerator |

## Left out

- Rendering: `ofPushStyle`, `ofFill`, `ofCircle`, `ofSetLineWidth`, `ofLine` and `ofPopStyle` are graphics calls. `Draw` returns the command instead, so the push and pop of the style state is not modelled.
- The `ofxOpenNIUser` member functions (`drawSkeleton`, `drawPointCloud`, `drawMask`, the setters and getters, `getNumLimbs`, `getCenter`, the status predicates, `getDebugInfo`): the header only declares them, so there is no behaviour to model. The only part modelled is the indexing of the limb vector by enumerator (`GetLimb`). `GetLimb` assumes the vector holds `NumLimbs` limbs, as indexing by enumerator requires.
- The user's tracking flags, the `pointCloud[2]` pair, the mask pixels and texture, and the raw `userPixels` buffer: no visible code reads or writes them.
- `Users.LimbAt`: a checked lookup by integer index. No code in the header has one. It gives raw indices a defined error result (`None`) instead of out-of-range access.
- The default constructors of the gesture event, hand event and limb: they leave their scalar fields uninitialised, while their `ofPoint` and `string` members are default-constructed. A datatype has no partly initialised value, so these constructors are not modelled. The default constructor of the hand is modelled (`Hands.Hand.constructor`): its two points start at the origin, and its id and tracking flag are arbitrary.
- Hands.Hand.constructor: the statement that the two points start at the origin relies on `ofPoint`'s default constructor zeroing its components, as for `Limbs.Limb.constructor`.
- Hands.Hand.GetPosition: the C++ accessor returns a reference through which a caller could change the hand's position. The model returns a copy, so that aliasing is not captured.
- Hands.Hand.GetWorldPosition: the C++ accessor returns a reference to the hand's world position, through which a caller could change it. The model returns a copy, so that aliasing is not captured.
- Users.GetLimb: the header declares `getLimb` without a body; the model assumes it returns `limbs[limb]`. In C++ the sentinel `NumLimbs` is itself an enumerator of `Limb`, so `getLimb(NumLimbs)` type-checks and reads past the end of a `NumLimbs`-element vector. Here `NumLimbs` is a `nat` constant and not a value of `Limb`, so that call is outside the model. The integer lookup `LimbAt(limbs, 19)` returns `None` instead. The C++ returns a reference to the user's own element of a vector of values, so writes through it reach that one element. The model returns a copy when the elements are values, and when they are `Limbs.Limb` objects, nothing keeps one object from sitting at two indices, so a write through one lookup may show at another.
- Floating point: `progress`, the point coordinates and the SDK's orientation are copied and never computed with. So they are reals or abstract types, with no rounding.
- The SDK types' members (the joint vocabulary, the orientation matrix and confidence, the status enumerations) are not part of this model. They are type parameters compared only for equality.
- Limbs.Limb.constructor: the statement that the four points start at the origin relies on `ofPoint`'s default constructor zeroing its components. `ofPoint.h` is not part of this model.
