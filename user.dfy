/**
 * The `Limb` enumeration of `ofxOpenNIUser` and the lookup of a user's limb
 * by it. A user keeps exactly `NumLimbs` limbs in a vector indexed by the
 * enumerator's value.
 */
module Users {

  datatype Option<T> = None | Some(value: T)

  /** The enumeration `Limb`, in declaration order; `NumLimbs` is the count, not a limb. */
  datatype LimbId =
    | Head | Neck
    | LeftHand | RightHand
    | LeftShoulder | LeftUpperArm | LeftLowerArm
    | RightShoulder | RightUpperArm | RightLowerArm
    | LeftUpperTorso | RightUpperTorso
    | LeftLowerTorso | LeftUpperLeg | LeftLowerLeg
    | RightLowerTorso | RightUpperLeg | RightLowerLeg
    | Hip

  /** The sentinel enumerator `NumLimbs`. */
  const NumLimbs: nat := 19

  /** Every limb, in declaration order. */
  const AllLimbs: seq<LimbId> := [
    Head, Neck,
    LeftHand, RightHand,
    LeftShoulder, LeftUpperArm, LeftLowerArm,
    RightShoulder, RightUpperArm, RightLowerArm,
    LeftUpperTorso, RightUpperTorso,
    LeftLowerTorso, LeftUpperLeg, LeftLowerLeg,
    RightLowerTorso, RightUpperLeg, RightLowerLeg,
    Hip]

  /** The integer value of an enumerator: `Head` is 0 and each next one is one more. */
  function Ordinal(l: LimbId): (n: nat)
    ensures n < NumLimbs
    ensures l == Head <==> n == 0
  {
    match l
    case Head => 0
    case Neck => 1
    case LeftHand => 2
    case RightHand => 3
    case LeftShoulder => 4
    case LeftUpperArm => 5
    case LeftLowerArm => 6
    case RightShoulder => 7
    case RightUpperArm => 8
    case RightLowerArm => 9
    case LeftUpperTorso => 10
    case RightUpperTorso => 11
    case LeftLowerTorso => 12
    case LeftUpperLeg => 13
    case LeftLowerLeg => 14
    case RightLowerTorso => 15
    case RightUpperLeg => 16
    case RightLowerLeg => 17
    case Hip => 18
  }

  /** The i-th limb of the declaration has ordinal i. */
  lemma OrdinalOfAllLimbs(i: nat)
    requires i < |AllLimbs|
    ensures |AllLimbs| == NumLimbs
    ensures Ordinal(AllLimbs[i]) == i
  {
  }

  /** Each limb stands in the declaration at the position of its ordinal. */
  lemma AllLimbsAtOrdinal(l: LimbId)
    ensures AllLimbs[Ordinal(l)] == l
  {
  }

  /** Ordinals strictly increase in declaration order. */
  lemma OrdinalsIncrease(i: nat, j: nat)
    requires i < j < |AllLimbs|
    ensures Ordinal(AllLimbs[i]) < Ordinal(AllLimbs[j])
  {
  }

  /** Distinct limbs have distinct ordinals. */
  lemma OrdinalInjective(l: LimbId, m: LimbId)
    ensures Ordinal(l) == Ordinal(m) <==> l == m
  {
  }

  /**
   * The enumerator with a given integer value: there is one exactly for the
   * values 0 to `NumLimbs` - 1.
   */
  function FromOrdinal(n: int): (r: Option<LimbId>)
    ensures r.Some? <==> 0 <= n < NumLimbs
    ensures r.Some? ==> Ordinal(r.value) == n
  {
    if 0 <= n < NumLimbs then OrdinalOfAllLimbs(n); Some(AllLimbs[n]) else None
  }

  /**
   * The C++ rule for the values of an enumeration without later
   * initializers: the first enumerator of `decl` takes the value `first`,
   * each later one the value of the one before it plus one. The value names
   * the first position of `l` in `decl`.
   */
  function EnumeratorValue(decl: seq<LimbId>, first: int, l: LimbId): (v: int)
    requires l in decl
    ensures first <= v < first + |decl|
    ensures decl[v - first] == l
    ensures forall k :: 0 <= k < v - first ==> decl[k] != l
    decreases |decl|
  {
    if decl[0] == l then first else EnumeratorValue(decl[1..], first + 1, l)
  }

  /**
   * The table `Ordinal` agrees with the C++ rule applied to the declaration
   * `Head = 0, Neck, ..., Hip`, and the sentinel `NumLimbs` that follows
   * `Hip` has the value one past it.
   */
  lemma OrdinalIsEnumeratorValue(l: LimbId)
    ensures l in AllLimbs && Ordinal(l) == EnumeratorValue(AllLimbs, 0, l)
    ensures EnumeratorValue(AllLimbs, 0, Hip) + 1 == NumLimbs
  {
    AllLimbsAtOrdinal(l);
    var v := EnumeratorValue(AllLimbs, 0, l);
    OrdinalOfAllLimbs(v);
    AllLimbsAtOrdinal(Hip);
    OrdinalOfAllLimbs(EnumeratorValue(AllLimbs, 0, Hip));
  }

  /** Converting an enumerator to its value and back gives the enumerator. */
  lemma FromOrdinalOfOrdinal(l: LimbId)
    ensures FromOrdinal(Ordinal(l)) == Some(l)
  {
    AllLimbsAtOrdinal(l);
  }

  /**
   * `getLimb(limb)`: the user's limb at the enumerator's index. Every
   * enumerator indexes inside a vector of `NumLimbs` limbs.
   */
  function GetLimb<T>(limbs: seq<T>, limb: LimbId): (r: T)
    requires |limbs| == NumLimbs
    ensures Ordinal(limb) < |limbs| && r == limbs[Ordinal(limb)]
  {
    limbs[Ordinal(limb)]
  }

  /**
   * A lookup by raw integer index: the limb when the index names an
   * enumerator, nothing when it lies outside 0 to `NumLimbs` - 1.
   */
  function LimbAt<T>(limbs: seq<T>, index: int): (r: Option<T>)
    requires |limbs| == NumLimbs
    ensures r.Some? <==> 0 <= index < NumLimbs
    ensures r == if 0 <= index < NumLimbs then Some(limbs[index]) else None
  {
    match FromOrdinal(index)
    case Some(l) => Some(GetLimb(limbs, l))
    case None => None
  }

  /** Looking a limb up by its enumerator's value finds what `GetLimb` finds. */
  lemma LimbAtOrdinal<T>(limbs: seq<T>, limb: LimbId)
    requires |limbs| == NumLimbs
    ensures LimbAt(limbs, Ordinal(limb)) == Some(GetLimb(limbs, limb))
  {
    FromOrdinalOfOrdinal(limb);
  }
}
