/**
 * The shot resolver of the game screen: the aim clamp, the keeper's
 * decision taken before any animation runs (`moveKeeper`), and the
 * goal-frame test that classifies an unblocked shot (`checkGoal`).
 *
 * Geometry is real-valued. The two `Math.random()` draws are inputs in
 * [0, 1); the sine of the aim angle is not modelled: the predicted lateral
 * position of the ball, `sin(angle) * goalWidth * 0.4`, is an input, and
 * the bound |sin| <= 1 becomes the hypothesis |predictedX| <= 0.4 * goalWidth.
 */
module Resolver {
  import opened Config

  datatype Position = Left | Center | Right
  datatype ShotResult = Goal | Saved | Missed

  /** Window size and goal size, in screen units. */
  datatype Pitch = Pitch(screenWidth: real, screenHeight: real, goalWidth: real, goalHeight: real)

  /** The shipped geometry: the goal is 80% of the width and 35% of the height of the window. */
  function ShippedPitch(screenWidth: real, screenHeight: real): (p: Pitch)
    ensures p.screenWidth == screenWidth && p.screenHeight == screenHeight
    ensures p.goalWidth == screenWidth * 0.8 && p.goalHeight == screenHeight * 0.35
  {
    Pitch(screenWidth, screenHeight, screenWidth * 0.8, screenHeight * 0.35)
  }

  function Abs(x: real): real
  {
    if x < 0.0 then -x else x
  }

  /** Aim clamp: `Math.max(-60, Math.min(60, angle))`. */
  function ClampAngle(angle: real): (r: real)
    ensures -60.0 <= r <= 60.0
    ensures -60.0 <= angle <= 60.0 ==> r == angle
    ensures angle > 60.0 ==> r == 60.0
    ensures angle < -60.0 ==> r == -60.0
  {
    var m := if 60.0 < angle then 60.0 else angle;
    if -60.0 > m then -60.0 else m
  }

  /** A gesture at 85 degrees aims at 60. */
  lemma ClampExample()
    ensures ClampAngle(85.0) == 60.0 && ClampAngle(-85.0) == -60.0 && ClampAngle(12.5) == 12.5
  {
  }

  /** `getKeeperXPosition`: the keeper's lateral offset for each position. */
  function KeeperX(p: Position, goalWidth: real): (x: real)
    ensures p == Center ==> x == 0.0
    ensures p != Center ==> Abs(x) == Abs(goalWidth) / 3.0
    ensures goalWidth > 0.0 ==> (x < 0.0 <==> p == Left) && (x > 0.0 <==> p == Right)
  {
    match p
    case Left => -goalWidth / 3.0
    case Center => 0.0
    case Right => goalWidth / 3.0
  }

  /** Chance that the keeper decides to block, per difficulty. */
  function SaveRate(d: Difficulty): (rate: real)
    ensures 0.0 < rate < 1.0
  {
    match d
    case Easy => 0.45
    case Hard => 0.75
    case Medium => 0.66
  }

  /** A harder keeper saves more often. */
  lemma SaveRateIncreasesWithDifficulty()
    ensures SaveRate(Easy) < SaveRate(Medium) < SaveRate(Hard)
  {
  }

  /** The position whose bucket holds the predicted ball, split at a quarter of the goal width. */
  function BlockBucket(predictedX: real, goalWidth: real): (b: Position)
    ensures goalWidth >= 0.0 ==>
              && (b == Left <==> predictedX < -goalWidth / 4.0)
              && (b == Right <==> predictedX > goalWidth / 4.0)
              && (b == Center <==> Abs(predictedX) <= goalWidth / 4.0)
  {
    if predictedX < -goalWidth / 4.0 then Left
    else if predictedX > goalWidth / 4.0 then Right
    else Center
  }

  /** A keeper at `p` is further than a third of the goal width from the ball. */
  predicate FarFrom(p: Position, predictedX: real, goalWidth: real)
  {
    Abs(KeeperX(p, goalWidth) - predictedX) > goalWidth / 3.0
  }

  /** `positions.filter(pos => FarFrom(pos))`, keeping the order of `ps`. */
  function FilterFar(ps: seq<Position>, predictedX: real, goalWidth: real): (r: seq<Position>)
    ensures |r| <= |ps|
    ensures forall p :: p in r <==> p in ps && FarFrom(p, predictedX, goalWidth)
  {
    if ps == [] then []
    else
      var rest := FilterFar(ps[1..], predictedX, goalWidth);
      assert forall p :: p in ps <==> p == ps[0] || p in ps[1..];
      if FarFrom(ps[0], predictedX, goalWidth) then [ps[0]] + rest else rest
  }

  /** The "wrong" positions of `moveKeeper`, before the fallback. */
  function WrongPositions(predictedX: real, goalWidth: real): seq<Position>
  {
    FilterFar([Left, Center, Right], predictedX, goalWidth)
  }

  /** The positions the keeper picks from when he lets the shot through. */
  function MissCandidates(predictedX: real, goalWidth: real): (r: seq<Position>)
    ensures 1 <= |r| <= 3
    ensures WrongPositions(predictedX, goalWidth) != [] ==>
              forall p :: p in r <==> FarFrom(p, predictedX, goalWidth)
    ensures WrongPositions(predictedX, goalWidth) == [] ==>
              r == [if predictedX >= 0.0 then Left else Right]
  {
    var w := WrongPositions(predictedX, goalWidth);
    if |w| == 0 then (if predictedX >= 0.0 then [Left] else [Right]) else w
  }

  /** `Math.floor(r * n)` for a draw `r` in [0, 1): always an index below `n`. */
  function PickIndex(r: real, n: nat): (i: nat)
    requires 0.0 <= r < 1.0 && n > 0
    ensures i < n
    ensures i as real <= r * n as real < i as real + 1.0
  {
    assert r * n as real < n as real;
    (r * n as real).Floor
  }

  /** The keeper's move: whether he blocks, where he stands, and the x he springs to. */
  datatype KeeperDecision = KeeperDecision(willBlock: bool, position: Position, targetX: real)

  /**
   * The decision part of `moveKeeper`: `blockDraw` is the first
   * `Math.random()`, `pickDraw` the second (drawn only on a miss).
   */
  function Decide(predictedX: real, goalWidth: real, difficulty: Difficulty, blockDraw: real, pickDraw: real): (k: KeeperDecision)
    requires goalWidth > 0.0
    requires 0.0 <= blockDraw < 1.0 && 0.0 <= pickDraw < 1.0
    ensures k.willBlock <==> blockDraw < SaveRate(difficulty)
    ensures k.willBlock ==> k.targetX == predictedX && k.position == BlockBucket(predictedX, goalWidth)
    ensures !k.willBlock ==> k.position in MissCandidates(predictedX, goalWidth)
    ensures !k.willBlock ==>
              var candidates := MissCandidates(predictedX, goalWidth);
              k.position == candidates[PickIndex(pickDraw, |candidates|)]
    ensures !k.willBlock ==> k.targetX == KeeperX(k.position, goalWidth)
  {
    if blockDraw < SaveRate(difficulty) then
      KeeperDecision(true, BlockBucket(predictedX, goalWidth), predictedX)
    else
      var candidates := MissCandidates(predictedX, goalWidth);
      var p := candidates[PickIndex(pickDraw, |candidates|)];
      KeeperDecision(false, p, KeeperX(p, goalWidth))
  }

  /** The three positions and which of them are far from the ball, spelled out. */
  lemma {:induction false} WrongPositionsUnfold(predictedX: real, goalWidth: real)
    ensures WrongPositions(predictedX, goalWidth) ==
              (if FarFrom(Left, predictedX, goalWidth) then [Left] else []) +
              (if FarFrom(Center, predictedX, goalWidth) then [Center] else []) +
              (if FarFrom(Right, predictedX, goalWidth) then [Right] else [])
  {
    var ps := [Left, Center, Right];
    assert ps[1..] == [Center, Right];
    assert ps[1..][1..] == [Right];
    assert FilterFar([Right][1..], predictedX, goalWidth) == [];
    var r := FilterFar([Right], predictedX, goalWidth);
    assert r == if FarFrom(Right, predictedX, goalWidth) then [Right] else [];
    var cr := FilterFar([Center, Right], predictedX, goalWidth);
    assert cr == (if FarFrom(Center, predictedX, goalWidth) then [Center] else []) + r;
  }

  /**
   * Within reach of the aim (|predictedX| <= 0.4 * goalWidth) a keeper who
   * lets the shot through never stands in the bucket that would have blocked
   * it, and the sign-based fallback is needed only for a dead-centre shot.
   */
  lemma {:induction false} MissAvoidsBlockBucket(predictedX: real, goalWidth: real)
    requires goalWidth > 0.0
    requires -0.4 * goalWidth <= predictedX <= 0.4 * goalWidth
    ensures forall p :: p in MissCandidates(predictedX, goalWidth) ==> p != BlockBucket(predictedX, goalWidth)
    ensures WrongPositions(predictedX, goalWidth) == [] <==> predictedX == 0.0
  {
    WrongPositionsUnfold(predictedX, goalWidth);
  }

  /** On a miss the keeper's x is more than a third of the goal width from the ball, unless the shot is dead centre. */
  lemma {:induction false} MissIsFarFromBall(predictedX: real, goalWidth: real, difficulty: Difficulty, blockDraw: real, pickDraw: real)
    requires goalWidth > 0.0
    requires -0.4 * goalWidth <= predictedX <= 0.4 * goalWidth
    requires 0.0 <= blockDraw < 1.0 && 0.0 <= pickDraw < 1.0
    ensures var k := Decide(predictedX, goalWidth, difficulty, blockDraw, pickDraw);
            !k.willBlock ==>
              k.position != BlockBucket(predictedX, goalWidth) &&
              (predictedX != 0.0 ==> Abs(k.targetX - predictedX) > goalWidth / 3.0)
  {
    MissAvoidsBlockBucket(predictedX, goalWidth);
  }

  /** Outside the aim's reach the guarantee fails: a ball at -goalWidth has the left post "far". */
  lemma AimBoundIsNeeded(goalWidth: real)
    requires goalWidth > 0.0
    ensures Left in MissCandidates(-goalWidth, goalWidth) && BlockBucket(-goalWidth, goalWidth) == Left
  {
    WrongPositionsUnfold(-goalWidth, goalWidth);
  }

  /** The goal's rectangle in window coordinates (y grows downwards). */
  datatype Frame = Frame(left: real, right: real, top: real, bottom: real)

  /** `checkGoal`'s goalLeft, goalRight, goalTop and goalBottom. */
  function GoalFrame(pitch: Pitch): (f: Frame)
    ensures f.right - f.left == pitch.goalWidth && f.left + f.right == pitch.screenWidth
    ensures f.top == pitch.screenHeight * 0.3 && f.bottom - f.top == pitch.goalHeight
  {
    var goalTop := pitch.screenHeight * 0.3;
    Frame(pitch.screenWidth / 2.0 - pitch.goalWidth / 2.0, pitch.screenWidth / 2.0 + pitch.goalWidth / 2.0,
          goalTop, goalTop + pitch.goalHeight)
  }

  /** A point inside the goal frame, edges included. */
  predicate InGoalFrame(x: real, y: real, pitch: Pitch)
  {
    var f := GoalFrame(pitch);
    f.left <= x <= f.right && f.top <= y <= f.bottom
  }

  /** `checkGoal`'s rectangle test on the ball's final point. */
  function ClassifyFinalPoint(finalX: real, finalY: real, pitch: Pitch): (r: ShotResult)
    ensures r != Saved
    ensures r == Goal <==> InGoalFrame(finalX, finalY, pitch)
  {
    var f := GoalFrame(pitch);
    if finalX < f.left || finalX > f.right || finalY < f.top || finalY > f.bottom then Missed
    else Goal
  }

  /** Where an unblocked ball comes to rest: the window's centre line plus the destination offset. */
  function UnblockedFinalPoint(predictedX: real, pitch: Pitch): (r: (real, real))
    ensures r.0 - pitch.screenWidth / 2.0 == predictedX
    ensures r.1 == pitch.screenHeight * 0.4
  {
    (pitch.screenWidth / 2.0 + predictedX, pitch.screenHeight * 0.7 + -(pitch.screenHeight * 0.3))
  }

  /**
   * The whole resolution of one shot: a blocked shot is saved, an
   * unblocked one is classified where it comes to rest.
   */
  function ShotOutcome(willBlock: bool, predictedX: real, pitch: Pitch): (r: ShotResult)
    ensures r == Saved <==> willBlock
    ensures !willBlock ==>
              (r == Missed <==> !InGoalFrame(UnblockedFinalPoint(predictedX, pitch).0, UnblockedFinalPoint(predictedX, pitch).1, pitch))
  {
    if willBlock then Saved
    else
      var (x, y) := UnblockedFinalPoint(predictedX, pitch);
      ClassifyFinalPoint(x, y, pitch)
  }

  /**
   * Any goal at least a tenth of the window high catches every unblocked
   * shot within the aim's reach: the ball ends at 40% of the height, inside
   * [30%, 30% + goalHeight], and at most 0.4 * goalWidth off centre.
   */
  lemma UnblockedShotAlwaysScores(predictedX: real, pitch: Pitch)
    requires pitch.goalWidth > 0.0 && pitch.screenHeight >= 0.0
    requires pitch.goalHeight >= pitch.screenHeight * 0.1
    requires -0.4 * pitch.goalWidth <= predictedX <= 0.4 * pitch.goalWidth
    ensures ShotOutcome(false, predictedX, pitch) == Goal
  {
  }

  /** A goal that catches every unblocked shot within the aim's reach. */
  predicate CatchesEveryShot(pitch: Pitch)
  {
    pitch.goalWidth > 0.0 && pitch.screenHeight >= 0.0 && pitch.goalHeight >= pitch.screenHeight * 0.1
  }

  /** The shipped geometry meets that bound, so no shot of the shipped game is ever wide. */
  lemma ShippedPitchNeverWide(screenWidth: real, screenHeight: real, predictedX: real)
    requires screenWidth > 0.0 && screenHeight >= 0.0
    requires -0.4 * (screenWidth * 0.8) <= predictedX <= 0.4 * (screenWidth * 0.8)
    ensures ShotOutcome(false, predictedX, ShippedPitch(screenWidth, screenHeight)) == Goal
  {
    UnblockedShotAlwaysScores(predictedX, ShippedPitch(screenWidth, screenHeight));
  }
}
