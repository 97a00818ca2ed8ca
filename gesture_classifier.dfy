/** The per-hand gesture classifier of the gesture-drawing app: a
    priority-ordered test over the 21 hand landmarks that the hand tracker
    reports, with fixed thresholds. Distances are compared squared, over
    the reals; since the square root is monotone this decides every
    comparison the same way as the source's Euclidean distances. */
module GestureClassifier {

  /** A hand landmark, in normalised image coordinates. */
  datatype Landmark = Landmark(x: real, y: real)

  /** The gesture alphabet. The classifier only ever produces six of these;
      `Snapshot` is a value the frame loop stores as its current gesture
      although the source's gesture type does not list it. */
  datatype Gesture =
    | NoGesture | Pointing | Pinch | Fist | Peace | ThumbsUp | Palm | Ok | Rock | Frame
    | Snapshot

  /** The hand tracker reports 21 landmarks per hand. */
  predicate IsHand(lm: seq<Landmark>)
  {
    |lm| == 21
  }

  // Landmark indices used by the classifier.
  const Wrist := 0
  const ThumbTip := 4
  const IndexMcp := 5
  const IndexPip := 6
  const IndexTip := 8
  const MiddlePip := 10
  const MiddleTip := 12
  const RingPip := 14
  const RingTip := 16
  const PinkyPip := 18
  const PinkyTip := 20

  /** Thumb tip to index tip closer than this is a pinch. */
  const PinchDistance: real := 0.05
  /** Thumb tip to index knuckle farther than this is an extended thumb. */
  const ThumbExtension: real := 0.1

  function SqDist(a: Landmark, b: Landmark): (d: real)
    ensures d >= 0.0
  {
    (a.x - b.x) * (a.x - b.x) + (a.y - b.y) * (a.y - b.y)
  }

  /** A finger is curled when its tip is nearer the wrist than its middle joint. */
  predicate IsCurled(lm: seq<Landmark>, tip: nat, pip: nat)
    requires IsHand(lm) && tip < 21 && pip < 21
  {
    SqDist(lm[tip], lm[Wrist]) < SqDist(lm[pip], lm[Wrist])
  }

  predicate IndexCurled(lm: seq<Landmark>) requires IsHand(lm) { IsCurled(lm, IndexTip, IndexPip) }
  predicate MiddleCurled(lm: seq<Landmark>) requires IsHand(lm) { IsCurled(lm, MiddleTip, MiddlePip) }
  predicate RingCurled(lm: seq<Landmark>) requires IsHand(lm) { IsCurled(lm, RingTip, RingPip) }
  predicate PinkyCurled(lm: seq<Landmark>) requires IsHand(lm) { IsCurled(lm, PinkyTip, PinkyPip) }

  predicate AllCurled(lm: seq<Landmark>)
    requires IsHand(lm)
  {
    IndexCurled(lm) && MiddleCurled(lm) && RingCurled(lm) && PinkyCurled(lm)
  }

  predicate NoneCurled(lm: seq<Landmark>)
    requires IsHand(lm)
  {
    !IndexCurled(lm) && !MiddleCurled(lm) && !RingCurled(lm) && !PinkyCurled(lm)
  }

  /** Thumb and index tips are within the pinch distance. */
  predicate TipsTouch(lm: seq<Landmark>)
    requires IsHand(lm)
  {
    SqDist(lm[ThumbTip], lm[IndexTip]) < PinchDistance * PinchDistance
  }

  /** The thumb tip is farther than the extension distance from the index knuckle. */
  predicate ThumbExtended(lm: seq<Landmark>)
    requires IsHand(lm)
  {
    SqDist(lm[ThumbTip], lm[IndexMcp]) > ThumbExtension * ThumbExtension
  }

  /** The gestures the classifier can produce. */
  predicate IsClassifierOutput(g: Gesture)
  {
    g in {NoGesture, Pinch, Peace, ThumbsUp, Fist, Palm}
  }

  /** `detectGesture`: pinch, then peace, then thumbs-up, then fist, then palm. */
  function Classify(lm: seq<Landmark>): (g: Gesture)
    requires IsHand(lm)
    ensures IsClassifierOutput(g)
    ensures g == Pinch <==> TipsTouch(lm) && !IndexCurled(lm)
    ensures g != Pinch ==>
      (g == Peace <==> !IndexCurled(lm) && !MiddleCurled(lm) && RingCurled(lm) && PinkyCurled(lm))
    ensures g != Pinch ==> (g == Palm <==> NoneCurled(lm))
    ensures AllCurled(lm) ==> g == (if ThumbExtended(lm) then ThumbsUp else Fist)
    ensures g == ThumbsUp <==> AllCurled(lm) && ThumbExtended(lm)
    ensures g == Fist <==> AllCurled(lm) && !ThumbExtended(lm)
    ensures g == NoGesture <==>
      && !(TipsTouch(lm) && !IndexCurled(lm))
      && !(!IndexCurled(lm) && !MiddleCurled(lm) && RingCurled(lm) && PinkyCurled(lm))
      && !AllCurled(lm) && !NoneCurled(lm)
  {
    if TipsTouch(lm) && !IndexCurled(lm) then Pinch
    else if !IndexCurled(lm) && !MiddleCurled(lm) && RingCurled(lm) && PinkyCurled(lm) then Peace
    else if ThumbExtended(lm) && AllCurled(lm) then ThumbsUp
    else if AllCurled(lm) then Fist
    else if NoneCurled(lm) then Palm
    else NoGesture
  }
}
