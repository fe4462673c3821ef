/** Configuration constants of the clinic front-end: the fixed set of body
    regions a needle count is recorded for, and the number of beds. */
module Constants {

  /** One tag per entry of BODY_PARTS. */
  datatype BodyPart =
    | Head
    | Torso
    | Back
    | LeftUpperLimb
    | LeftLowerLimb
    | RightUpperLimb
    | RightLowerLimb

  /** The key under which a region's count is stored in a record's `counts` object. */
  function Tag(p: BodyPart): string
  {
    match p
    case Head => "head"
    case Torso => "torso"
    case Back => "back"
    case LeftUpperLimb => "leftUpperLimb"
    case LeftLowerLimb => "leftLowerLimb"
    case RightUpperLimb => "rightUpperLimb"
    case RightLowerLimb => "rightLowerLimb"
  }

  /** BODY_PARTS in display order. */
  const BodyParts: seq<BodyPart> :=
    [Head, Torso, Back, LeftUpperLimb, LeftLowerLimb, RightUpperLimb, RightLowerLimb]

  /** Number of treatment beds, labelled "1" up to "20". */
  const BedCount: nat := 20

  /** BODY_PARTS lists every region exactly once, so the region set is closed. */
  lemma BodyPartsListEachOnce(p: BodyPart)
    ensures p in BodyParts
    ensures multiset(BodyParts)[p] == 1
  {
    match p
    case Head =>
    case Torso =>
    case Back =>
    case LeftUpperLimb =>
    case LeftLowerLimb =>
    case RightUpperLimb =>
    case RightLowerLimb =>
  }

  /** Distinct regions are stored under distinct keys, so a counts map keyed by
      `BodyPart` holds exactly what the `counts` object keyed by id strings holds. */
  lemma TagInjective(p: BodyPart, q: BodyPart)
    ensures Tag(p) == Tag(q) ==> p == q
  {
  }
}
