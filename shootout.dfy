/**
 * The game screen's match logic. Its React state (`gameState`, `shots`,
 * `totalShots`, `tapCount`, `keeperPosition`, `showMessage`, the loaded
 * preferences and the cross-match statistics) and its two mutable refs
 * (`shouldKeeperBlockRef`, `shotDestinationRef`) are the fields of `Match`.
 * Every timer and animation-completion callback is a step method that does
 * nothing unless that callback is scheduled (a `...Pending` field).
 */
module Shootout {
  import opened Wrappers
  import opened Config
  import opened Storage
  import opened JsText
  import opened Resolver
  import Preferences

  datatype GameState = Aiming | Shooting | Result | GameOver

  /** One entry of the shot history. */
  datatype Shot = Shot(result: ShotResult, attempt: nat)

  datatype Point = Point(x: real, y: real)

  /** Shots in a match before any sudden death. */
  const BaseShots: nat := 5

  /** `shots.filter(s => s.result === r).length` */
  function Count(shots: seq<Shot>, r: ShotResult): (n: nat)
    ensures n <= |shots|
  {
    if shots == [] then 0
    else Count(shots[..|shots| - 1], r) + (if shots[|shots| - 1].result == r then 1 else 0)
  }

  /** Appending a shot adds one to the count of its own result and nothing to the others. */
  lemma {:induction false} CountAppend(shots: seq<Shot>, s: Shot, r: ShotResult)
    ensures Count(shots + [s], r) == Count(shots, r) + (if s.result == r then 1 else 0)
  {
    assert (shots + [s])[..|shots|] == shots;
  }

  /** goals + saves + misses is the length of the history. */
  lemma {:induction false} CountsSumToLength(shots: seq<Shot>)
    ensures Count(shots, Goal) + Count(shots, Saved) + Count(shots, Missed) == |shots|
  {
    if shots != [] {
      CountsSumToLength(shots[..|shots| - 1]);
    }
  }

  /** Without a miss, a history of odd length cannot be level. */
  lemma NoMissOddLengthIsDecided(shots: seq<Shot>)
    requires Count(shots, Missed) == 0 && |shots| % 2 == 1
    ensures Count(shots, Goal) != Count(shots, Saved)
  {
    CountsSumToLength(shots);
  }

  /** Entry i of the history is attempt i + 1. */
  predicate Numbered(shots: seq<Shot>)
  {
    forall i :: 0 <= i < |shots| ==> shots[i].attempt == i + 1
  }

  /** The text in the message overlay; `Blank` is the empty string, which shows nothing. */
  datatype Banner =
    | Blank
    | SavedBanner
    | GoalBanner
    | WideBanner
    | YouWin(goals: nat, saves: nat)
    | TieGame(goals: nat, saves: nat)
    | KeeperWins(saves: nat, goals: nat)
  {
    function Text(): (t: string)
      ensures t == "" <==> this == Blank
    {
      match this
      case Blank => ""
      case SavedBanner => "SAVED!"
      case GoalBanner => "GOOOAL!"
      case WideBanner => "WIDE!"
      case YouWin(g, s) => "YOU WIN! " + NatToString(g) + " GOALS vs " + NatToString(s) + " SAVES!"
      case TieGame(g, s) => "TIE GAME! " + NatToString(g) + "-" + NatToString(s) + " - SUDDEN DEATH!"
      case KeeperWins(s, g) => "KEEPER WINS! " + NatToString(s) + " SAVES vs " + NatToString(g) + " GOALS"
    }
  }

  /** The message shown as a shot is recorded. */
  function ResultBanner(r: ShotResult): (b: Banner)
    ensures b.Text() == (match r case Saved => "SAVED!" case Goal => "GOOOAL!" case Missed => "WIDE!")
  {
    match r
    case Saved => SavedBanner
    case Goal => GoalBanner
    case Missed => WideBanner
  }

  /** The end-of-match verdict of `endGameWithShots`: misses count for neither side. */
  function FinalBanner(shots: seq<Shot>): (b: Banner)
    ensures b.YouWin? <==> Count(shots, Goal) > Count(shots, Saved)
    ensures b.TieGame? <==> Count(shots, Goal) == Count(shots, Saved)
    ensures b.KeeperWins? <==> Count(shots, Goal) < Count(shots, Saved)
    ensures (b.YouWin? || b.TieGame? || b.KeeperWins?) && b.goals == Count(shots, Goal) && b.saves == Count(shots, Saved)
  {
    var goals := Count(shots, Goal);
    var saves := Count(shots, Saved);
    if goals > saves then YouWin(goals, saves)
    else if goals == saves then TieGame(goals, saves)
    else KeeperWins(saves, goals)
  }

  /** One more entry of the history, counted. */
  lemma CountPrefixStep(h: seq<Shot>, k: nat, r: ShotResult)
    requires k < |h|
    ensures Count(h[..k + 1], r) == Count(h[..k], r) + (if h[k].result == r then 1 else 0)
  {
    assert h[..k + 1] == h[..k] + [h[k]];
    CountAppend(h[..k], h[k], r);
  }

  /** The counts of a five-shot history, entry by entry. */
  lemma CountFive(h: seq<Shot>, r: ShotResult)
    requires |h| == 5
    ensures Count(h, r) == (if h[0].result == r then 1 else 0) + (if h[1].result == r then 1 else 0)
                           + (if h[2].result == r then 1 else 0) + (if h[3].result == r then 1 else 0)
                           + (if h[4].result == r then 1 else 0)
  {
    assert h[..0] == [];
    CountPrefixStep(h, 0, r);
    CountPrefixStep(h, 1, r);
    CountPrefixStep(h, 2, r);
    CountPrefixStep(h, 3, r);
    CountPrefixStep(h, 4, r);
    assert h[..5] == h;
  }

  /** Three goals against two saves: the shooter wins and no shot is added. */
  lemma ShooterWinsScenario()
    ensures FinalBanner([Shot(Goal, 1), Shot(Goal, 2), Shot(Goal, 3), Shot(Saved, 4), Shot(Saved, 5)]) == YouWin(3, 2)
  {
    var h := [Shot(Goal, 1), Shot(Goal, 2), Shot(Goal, 3), Shot(Saved, 4), Shot(Saved, 5)];
    CountFive(h, Goal);
    CountFive(h, Saved);
  }

  /** Two goals, two saves and a miss: a tie, so sudden death follows. */
  lemma TieScenario()
    ensures FinalBanner([Shot(Goal, 1), Shot(Saved, 2), Shot(Goal, 3), Shot(Saved, 4), Shot(Missed, 5)]) == TieGame(2, 2)
  {
    var h := [Shot(Goal, 1), Shot(Saved, 2), Shot(Goal, 3), Shot(Saved, 4), Shot(Missed, 5)];
    CountFive(h, Goal);
    CountFive(h, Saved);
  }

  /** The three preferences the game screen reads back from storage. */
  datatype GamePrefs = GamePrefs(viewMode: ViewMode, difficulty: Difficulty, soundEnabled: bool)

  /** The game screen's text check: non-blank and, once trimmed, braced. */
  function GamePreCheck(raw: string): (b: bool)
    ensures b ==> !AllWhiteSpace(raw) && 2 <= |Trim(raw)| <= |raw|
  {
    var t := Trim(raw);
    t != "" && t[0] == '{' && t[|t| - 1] == '}'
  }

  /** Everything the settings screen accepts, the game screen accepts too. */
  lemma SettingsCheckIsStricter(raw: string)
    ensures Preferences.PassesPreCheck(raw) ==> GamePreCheck(raw)
  {
  }

  /** But not conversely: `{}` passes the game screen's check only. */
  lemma EmptyBracesPassGameCheckOnly()
    ensures GamePreCheck("{}") && !Preferences.PassesPreCheck("{}")
  {
    var t := "{}";
    assert t[0] == '{' && t[1] == '}' && |t| == 2;
    TrimOfUnpadded(t);
    assert Trim(t) == t;
  }

  /** The partial update of the focus effect: only a valid stored value overwrites a preference. */
  function MergeStored(p: GamePrefs, f: StoredFields): (r: GamePrefs)
    ensures r.viewMode == (if f.viewMode.Text? && ParseViewMode(f.viewMode.t).Some? then ParseViewMode(f.viewMode.t).value else p.viewMode)
    ensures r.difficulty == (if f.difficulty.Text? && ParseDifficulty(f.difficulty.t).Some? then ParseDifficulty(f.difficulty.t).value else p.difficulty)
    ensures r.soundEnabled == (if f.soundEnabled.Bool? then f.soundEnabled.b else p.soundEnabled)
  {
    var v := if Truthy(f.viewMode) && f.viewMode.Text? && ParseViewMode(f.viewMode.t).Some? then ParseViewMode(f.viewMode.t).value else p.viewMode;
    var d := if Truthy(f.difficulty) && f.difficulty.Text? && ParseDifficulty(f.difficulty.t).Some? then ParseDifficulty(f.difficulty.t).value else p.difficulty;
    var s := if f.soundEnabled.Bool? then f.soundEnabled.b else p.soundEnabled;
    GamePrefs(v, d, s)
  }

  /** Merging the same stored object twice changes nothing more. */
  lemma MergeIdempotent(p: GamePrefs, f: StoredFields)
    ensures MergeStored(MergeStored(p, f), f) == MergeStored(p, f)
  {
  }

  /**
   * Where the stored value is valid the game screen and the settings screen
   * agree on it; where it is not, the settings screen falls back to its
   * default and the game screen keeps what it had.
   */
  lemma MergeVersusNormalise(p: GamePrefs, f: StoredFields)
    ensures var m, n := MergeStored(p, f), Preferences.Normalise(f);
            (f.difficulty.Text? && f.difficulty.t in ["easy", "medium", "hard"] ==> m.difficulty == n.difficulty)
            && (!(f.difficulty.Text? && f.difficulty.t in ["easy", "medium", "hard"]) ==> m.difficulty == p.difficulty && n.difficulty == Medium)
            && (f.viewMode.Text? && f.viewMode.t in ["day", "night", "rain"] ==> m.viewMode == n.viewMode)
            && (!(f.viewMode.Text? && f.viewMode.t in ["day", "night", "rain"]) ==> m.viewMode == p.viewMode && n.viewMode == Day)
            && (f.soundEnabled.Bool? ==> m.soundEnabled == n.soundEnabled)
  {
  }

  /** The new preferences and stored entry after the focus effect's `loadSettings`. */
  datatype FocusResult = FocusResult(prefs: GamePrefs, item: Option<string>)

  function FocusStep(item: Option<string>, readOk: bool, parsed: ParseOutcome, current: GamePrefs): (r: FocusResult)
    ensures r.item == item || r.item == None
    ensures r.prefs != current ==> parsed.Object? && r.prefs == MergeStored(current, parsed.fields) && r.item == item
    ensures if readOk && item.Some? && GamePreCheck(item.value) && parsed.Object?
            then r.prefs == MergeStored(current, parsed.fields) && r.item == item
            else r.prefs == current
    ensures item.Some? ==>
              (r.item == None <==> !readOk || (!AllWhiteSpace(item.value) && !(GamePreCheck(item.value) && parsed.Object?)))
  {
    if !readOk then FocusResult(current, None)
    else if item.None? || Trim(item.value) == "" then FocusResult(current, item)
    else if !GamePreCheck(item.value) then FocusResult(current, None)
    else if !parsed.Object? then FocusResult(current, None)
    else FocusResult(MergeStored(current, parsed.fields), item)
  }

  /** What the settings screen saved is what the game screen picks up on its next focus. */
  lemma FocusPicksUpSavedSettings(s: Preferences.Settings, current: GamePrefs)
    ensures FocusStep(Some(Preferences.Stringify(s)), true, Object(Preferences.Fields(s)), current)
            == FocusResult(GamePrefs(s.viewMode, s.difficulty, s.soundEnabled), Some(Preferences.Stringify(s)))
  {
    Preferences.StringifiedPassesPreCheck(s);
    DifficultyNameRoundTrip(s.difficulty);
    ViewModeNameRoundTrip(s.viewMode);
  }

  class Match {
    const pitch: Pitch
    const store: Store

    var gameState: GameState
    var shots: seq<Shot>
    var totalShots: nat
    var arrowAngle: real
    var tapCount: nat
    var keeperPosition: Position
    var showMessage: Banner
    var viewMode: ViewMode
    var difficulty: Difficulty
    var soundEnabled: bool
    var totalGamesPlayed: nat
    var consecutiveWins: nat

    /** `shouldKeeperBlockRef.current` and `shotDestinationRef.current` */
    var shouldKeeperBlock: bool
    var shotDestination: Point

    /** Scheduled callbacks: the tap-count reset, the ball's flight, the result pause, the sudden-death pause (holding the `totalShots` it captured). */
    var tapResetPending: bool
    var flightPending: bool
    var resultPending: bool
    var suddenDeathPending: Option<nat>

    /** What holds in every state the callbacks can leave behind. */
    ghost predicate Ledger()
      reads this`totalShots, this`shots, this`tapCount, this`arrowAngle, this`shotDestination, this`suddenDeathPending
    {
      && pitch.goalWidth > 0.0
      && BaseShots <= totalShots && |shots| <= totalShots && Numbered(shots)
      && tapCount <= 1
      && -60.0 <= arrowAngle <= 60.0
      && -0.4 * pitch.goalWidth <= shotDestination.x <= 0.4 * pitch.goalWidth
      && (suddenDeathPending.Some? ==> suddenDeathPending.value >= totalShots)
    }

    /** The phases of a match and the callbacks each may have pending. */
    ghost predicate Phases()
      reads this`gameState, this`shots, this`totalShots, this`flightPending, this`resultPending, this`suddenDeathPending, this`shotDestination
    {
      && gameState != Result
      && (gameState == Aiming ==>
            |shots| < totalShots && !flightPending && !resultPending && suddenDeathPending.None?)
      && (gameState == Shooting ==>
            suddenDeathPending.None? &&
            ((flightPending && !resultPending && |shots| < totalShots && shotDestination.y == -(pitch.screenHeight * 0.3))
             || (!flightPending && resultPending)))
      && (gameState == GameOver ==>
            |shots| == totalShots && !flightPending && !resultPending &&
            (suddenDeathPending.Some? ==>
               suddenDeathPending.value == totalShots && Count(shots, Goal) == Count(shots, Saved)))
    }

    /** With the shipped goal geometry no shot is wide, so no match is ever level after five. */
    ghost predicate ShippedMatch()
      reads this`shots, this`totalShots, this`suddenDeathPending
    {
      CatchesEveryShot(pitch) ==>
        Count(shots, Missed) == 0 && totalShots == BaseShots && suddenDeathPending.None?
    }

    ghost predicate Valid()
      reads this`gameState, this`totalShots, this`shots, this`tapCount, this`arrowAngle, this`shotDestination,
            this`flightPending, this`resultPending, this`suddenDeathPending
    {
      Ledger() && Phases() && ShippedMatch()
    }

    /** Between the ball's arrival and the recording of the shot. */
    ghost predicate Landing()
      reads this`gameState, this`totalShots, this`shots, this`tapCount, this`arrowAngle, this`shotDestination,
            this`flightPending, this`resultPending, this`suddenDeathPending
    {
      && Ledger() && ShippedMatch()
      && gameState == Shooting && !flightPending && !resultPending
      && |shots| < totalShots && suddenDeathPending.None?
    }

    constructor (pitch: Pitch, store: Store)
      requires pitch.goalWidth > 0.0
      ensures Valid() && this.pitch == pitch && this.store == store
      ensures gameState == Aiming && shots == [] && totalShots == 5 && arrowAngle == 0.0 && tapCount == 0
      ensures keeperPosition == Center && showMessage == Blank
      ensures viewMode == Day && difficulty == Medium && soundEnabled
      ensures totalGamesPlayed == 0 && consecutiveWins == 0
      ensures !shouldKeeperBlock && shotDestination == Point(0.0, 0.0)
      ensures !tapResetPending && !flightPending && !resultPending && suddenDeathPending.None?
    {
      this.pitch := pitch;
      this.store := store;
      gameState := Aiming;
      shots := [];
      totalShots := BaseShots;
      arrowAngle := 0.0;
      tapCount := 0;
      keeperPosition := Center;
      showMessage := Blank;
      viewMode := Day;
      difficulty := Medium;
      soundEnabled := true;
      totalGamesPlayed := 0;
      consecutiveWins := 0;
      shouldKeeperBlock := false;
      shotDestination := Point(0.0, 0.0);
      tapResetPending := false;
      flightPending := false;
      resultPending := false;
      suddenDeathPending := None;
    }

    /** The scoreboard's REMAINING. */
    function Remaining(): (n: int)
      reads this
      requires Valid()
      ensures 0 <= n <= totalShots
      ensures n == 0 <==> |shots| == totalShots
    {
      totalShots - |shots|
    }

    /** A drag while aiming sets the arrow to the clamped gesture angle. */
    method Aim(rawAngle: real)
      requires Valid()
      modifies this`arrowAngle
      ensures Valid()
      ensures arrowAngle == if gameState == Aiming then ClampAngle(rawAngle) else old(arrowAngle)
    {
      if gameState == Aiming {
        arrowAngle := ClampAngle(rawAngle);
      }
    }

    /** `moveKeeper`: commits the keeper's decision to the refs and the keeper's position. */
    method MoveKeeper(predictedX: real, blockDraw: real, pickDraw: real) returns (keeperTargetX: real)
      requires Ledger() && ShippedMatch()
      requires -0.4 * pitch.goalWidth <= predictedX <= 0.4 * pitch.goalWidth
      requires 0.0 <= blockDraw < 1.0 && 0.0 <= pickDraw < 1.0
      modifies this`shouldKeeperBlock, this`shotDestination, this`keeperPosition
      ensures Ledger() && ShippedMatch()
      ensures var k := Decide(predictedX, pitch.goalWidth, difficulty, blockDraw, pickDraw);
              shouldKeeperBlock == k.willBlock && keeperPosition == k.position && keeperTargetX == k.targetX
      ensures shotDestination == Point(predictedX, -(pitch.screenHeight * 0.3))
    {
      var k := Decide(predictedX, pitch.goalWidth, difficulty, blockDraw, pickDraw);
      shouldKeeperBlock := k.willBlock;
      shotDestination := Point(predictedX, -(pitch.screenHeight * 0.3));
      keeperPosition := k.position;
      keeperTargetX := k.targetX;
    }

    /** `shoot`: the keeper's decision is taken, then the ball's flight starts. */
    method Shoot(predictedX: real, blockDraw: real, pickDraw: real)
      requires Valid() && gameState == Aiming
      requires -0.4 * pitch.goalWidth <= predictedX <= 0.4 * pitch.goalWidth
      requires 0.0 <= blockDraw < 1.0 && 0.0 <= pickDraw < 1.0
      modifies this`gameState, this`flightPending, this`shouldKeeperBlock, this`shotDestination, this`keeperPosition
      ensures Valid() && gameState == Shooting && flightPending
      ensures var k := Decide(predictedX, pitch.goalWidth, difficulty, blockDraw, pickDraw);
              shouldKeeperBlock == k.willBlock && keeperPosition == k.position
      ensures shotDestination == Point(predictedX, -(pitch.screenHeight * 0.3))
    {
      gameState := Shooting;
      var _ := MoveKeeper(predictedX, blockDraw, pickDraw);
      flightPending := true;
    }

    /**
     * `handleTap`: ignored unless aiming; the first tap arms the shot and
     * schedules the tap-count reset, the second one shoots.
     */
    method HandleTap(predictedX: real, blockDraw: real, pickDraw: real) returns (fired: bool)
      requires Valid()
      requires -0.4 * pitch.goalWidth <= predictedX <= 0.4 * pitch.goalWidth
      requires 0.0 <= blockDraw < 1.0 && 0.0 <= pickDraw < 1.0
      modifies this`tapCount, this`tapResetPending, this`gameState, this`flightPending,
               this`shouldKeeperBlock, this`shotDestination, this`keeperPosition
      ensures Valid()
      ensures fired <==> old(gameState) == Aiming && old(tapCount) == 1
      ensures old(gameState) != Aiming ==> unchanged(this)
      ensures old(gameState) == Aiming && !fired ==> tapCount == 1 && tapResetPending && gameState == Aiming
      ensures old(gameState) == Aiming && !fired ==>
                keeperPosition == old(keeperPosition) && shouldKeeperBlock == old(shouldKeeperBlock) &&
                shotDestination == old(shotDestination) && flightPending == old(flightPending)
      ensures fired ==> tapCount == 0 && !tapResetPending && gameState == Shooting && flightPending
      ensures fired ==> var k := Decide(predictedX, pitch.goalWidth, difficulty, blockDraw, pickDraw);
                        shouldKeeperBlock == k.willBlock && keeperPosition == k.position &&
                        shotDestination == Point(predictedX, -(pitch.screenHeight * 0.3))
    {
      fired := false;
      if gameState != Aiming {
        return;
      }
      // The handler's state updates are batched: a second tap leaves the count at 0.
      var newTapCount := tapCount + 1;
      tapResetPending := false;
      if newTapCount == 2 {
        tapCount := 0;
        Shoot(predictedX, blockDraw, pickDraw);
        fired := true;
      } else {
        tapCount := newTapCount;
        tapResetPending := true;
      }
    }

    /** The 500 ms tap timer: forgets a lone tap. */
    method TapTimerFires()
      requires Valid()
      modifies this`tapCount, this`tapResetPending
      ensures Valid() && !tapResetPending
      ensures tapCount == if old(tapResetPending) then 0 else old(tapCount)
    {
      if tapResetPending {
        tapCount := 0;
        tapResetPending := false;
      }
    }

    /** `handleSavedShot`: records a save and starts the result pause. */
    method HandleSavedShot()
      requires Landing()
      modifies this`shots, this`showMessage, this`resultPending
      ensures Valid() && resultPending
      ensures shots == old(shots) + [Shot(Saved, |old(shots)| + 1)]
      ensures showMessage == SavedBanner
    {
      CountAppend(shots, Shot(Saved, |shots| + 1), Missed);
      shots := shots + [Shot(Saved, |shots| + 1)];
      showMessage := SavedBanner;
      resultPending := true;
    }

    /** `checkGoal`: classifies the ball's final point, records the shot and starts the result pause. */
    method CheckGoal(finalX: real, finalY: real) returns (result: ShotResult)
      requires Landing()
      modifies this`shots, this`showMessage, this`resultPending
      ensures Ledger() && Phases() && resultPending
      ensures result == ClassifyFinalPoint(finalX, finalY, pitch)
      ensures shots == old(shots) + [Shot(result, |old(shots)| + 1)]
      ensures showMessage == ResultBanner(result)
    {
      result := ClassifyFinalPoint(finalX, finalY, pitch);
      showMessage := ResultBanner(result);
      shots := shots + [Shot(result, |shots| + 1)];
      resultPending := true;
    }

    /** The end of the ball's flight: a decided block is saved, anything else is checked against the goal frame. */
    method AnimationComplete()
      requires Valid()
      modifies this`flightPending, this`shots, this`showMessage, this`resultPending
      ensures Valid()
      ensures !old(flightPending) ==> unchanged(this)
      ensures old(flightPending) ==>
                !flightPending && resultPending &&
                shots == old(shots) + [Shot(ShotOutcome(shouldKeeperBlock, shotDestination.x, pitch), |old(shots)| + 1)] &&
                showMessage == ResultBanner(ShotOutcome(shouldKeeperBlock, shotDestination.x, pitch))
    {
      if !flightPending {
        return;
      }
      flightPending := false;
      if shouldKeeperBlock {
        HandleSavedShot();
      } else {
        var finalX := pitch.screenWidth / 2.0 + shotDestination.x;
        var finalY := pitch.screenHeight * 0.7 + shotDestination.y;
        ghost var before := shots;
        var result := CheckGoal(finalX, finalY);
        if CatchesEveryShot(pitch) {
          UnblockedShotAlwaysScores(shotDestination.x, pitch);
          CountAppend(before, Shot(result, |before| + 1), Missed);
        }
      }
    }

    /** `resetForNextShot` (its state updates; the animation resets are not modelled). */
    method ResetForNextShot()
      requires Ledger()
      modifies this`gameState, this`arrowAngle, this`keeperPosition
      ensures Ledger()
      ensures gameState == Aiming && arrowAngle == 0.0 && keeperPosition == Center
      ensures |shots| < totalShots && !flightPending && !resultPending && suddenDeathPending.None? ==> Phases()
    {
      gameState := Aiming;
      arrowAngle := 0.0;
      keeperPosition := Center;
    }

    /** `endGameWithShots`: shows the verdict, and on a tie schedules the sudden-death shot. */
    method EndGameWithShots()
      requires Ledger() && ShippedMatch()
      requires |shots| >= totalShots && !flightPending && !resultPending && suddenDeathPending.None?
      modifies this`showMessage, this`gameState, this`suddenDeathPending
      ensures Valid() && gameState == GameOver
      ensures showMessage == FinalBanner(shots)
      ensures suddenDeathPending == if Count(shots, Goal) == Count(shots, Saved) then Some(totalShots) else None
    {
      var goals := Count(shots, Goal);
      var saves := Count(shots, Saved);
      showMessage := FinalBanner(shots);
      gameState := GameOver;
      if goals == saves {
        if CatchesEveryShot(pitch) {
          NoMissOddLengthIsDecided(shots);
        }
        suddenDeathPending := Some(totalShots);
      }
    }

    /** The result pause ends: the overlay clears, then the match either ends or goes on. */
    method ResultTimerFires()
      requires Valid()
      modifies this`resultPending, this`showMessage, this`gameState, this`suddenDeathPending,
               this`arrowAngle, this`keeperPosition
      ensures Valid()
      ensures !old(resultPending) ==> unchanged(this)
      ensures old(resultPending) && |shots| >= totalShots ==>
                !resultPending && gameState == GameOver && showMessage == FinalBanner(shots) &&
                suddenDeathPending == (if Count(shots, Goal) == Count(shots, Saved) then Some(totalShots) else None)
      ensures old(resultPending) && |shots| >= totalShots ==>
                arrowAngle == old(arrowAngle) && keeperPosition == old(keeperPosition)
      ensures old(resultPending) && |shots| < totalShots ==>
                !resultPending && gameState == Aiming && showMessage == Blank &&
                arrowAngle == 0.0 && keeperPosition == Center
    {
      if !resultPending {
        return;
      }
      resultPending := false;
      showMessage := Blank;
      if |shots| >= totalShots {
        EndGameWithShots();
      } else {
        ResetForNextShot();
      }
    }

    /**
     * The sudden-death pause ends: one more shot is allowed (counted from the
     * `totalShots` the callback captured) and play resumes; the tie message
     * stays up. It runs whenever it was scheduled, whatever happened since.
     */
    method SuddenDeathTimerFires()
      requires Ledger()
      modifies this`totalShots, this`suddenDeathPending, this`gameState, this`arrowAngle, this`keeperPosition
      ensures Ledger() && suddenDeathPending.None?
      ensures old(suddenDeathPending).None? ==> unchanged(this)
      ensures old(suddenDeathPending).Some? ==>
                totalShots == old(suddenDeathPending).value + 1 &&
                gameState == Aiming && arrowAngle == 0.0 && keeperPosition == Center
      ensures old(Valid()) ==> Valid()
      ensures old(Valid()) && old(suddenDeathPending).Some? ==>
                old(gameState) == GameOver && totalShots == |shots| + 1 && Count(shots, Goal) == Count(shots, Saved)
    {
      if suddenDeathPending.None? {
        return;
      }
      totalShots := suddenDeathPending.value + 1;
      suddenDeathPending := None;
      ResetForNextShot();
    }

    /**
     * `restartGame`, with the pending sudden-death callback cancelled: the
     * statistics are updated and a fresh five-shot match starts.
     */
    method RestartGame()
      requires Valid() && gameState == GameOver
      modifies this`totalGamesPlayed, this`consecutiveWins, this`shots, this`totalShots, this`showMessage,
               this`suddenDeathPending, this`gameState, this`arrowAngle, this`keeperPosition
      ensures Valid()
      ensures totalGamesPlayed == old(totalGamesPlayed) + 1
      ensures consecutiveWins == if Count(old(shots), Goal) > Count(old(shots), Saved) then old(consecutiveWins) + 1 else 0
      ensures shots == [] && totalShots == BaseShots && showMessage == Blank && suddenDeathPending.None?
      ensures gameState == Aiming && arrowAngle == 0.0 && keeperPosition == Center
    {
      var goals := Count(shots, Goal);
      var saves := Count(shots, Saved);
      var won := goals > saves;
      totalGamesPlayed := totalGamesPlayed + 1;
      consecutiveWins := if won then consecutiveWins + 1 else 0;
      shots := [];
      totalShots := BaseShots;
      showMessage := Blank;
      suddenDeathPending := None;
      ResetForNextShot();
    }

    /** `restartGame` as written: it leaves a scheduled sudden-death callback in place. */
    method RestartGameAsWritten()
      requires Valid() && gameState == GameOver
      modifies this`totalGamesPlayed, this`consecutiveWins, this`shots, this`totalShots, this`showMessage,
               this`gameState, this`arrowAngle, this`keeperPosition
      ensures Ledger()
      ensures totalGamesPlayed == old(totalGamesPlayed) + 1
      ensures consecutiveWins == if Count(old(shots), Goal) > Count(old(shots), Saved) then old(consecutiveWins) + 1 else 0
      ensures shots == [] && totalShots == BaseShots && showMessage == Blank
      ensures gameState == Aiming && arrowAngle == 0.0 && keeperPosition == Center
      ensures suddenDeathPending == old(suddenDeathPending)
      ensures CatchesEveryShot(pitch) ==> Valid()
    {
      var goals := Count(shots, Goal);
      var saves := Count(shots, Saved);
      var won := goals > saves;
      totalGamesPlayed := totalGamesPlayed + 1;
      consecutiveWins := if won then consecutiveWins + 1 else 0;
      shots := [];
      totalShots := BaseShots;
      showMessage := Blank;
      ResetForNextShot();
    }

    function Prefs(): GamePrefs
      reads this
    {
      GamePrefs(viewMode, difficulty, soundEnabled)
    }

    /** The focus effect's `loadSettings`: merges valid stored preferences, clears rejected text. */
    method LoadSettingsOnFocus(readOk: bool, parsed: ParseOutcome)
      requires Valid()
      modifies this`viewMode, this`difficulty, this`soundEnabled, store
      ensures Valid()
      ensures FocusResult(Prefs(), store.item) == FocusStep(old(store.item), readOk, parsed, old(Prefs()))
    {
      var item, prefs := store.item, Prefs();
      if !readOk {
        item := None;
      } else if item.Some? && Trim(item.value) != "" {
        if GamePreCheck(item.value) && parsed.Object? {
          prefs := MergeStored(prefs, parsed.fields);
        } else {
          item := None;
        }
      }
      store.item := item;
      SetPrefs(prefs);
    }

    /** The `setViewMode`, `setDifficulty` and `setSoundEnabled` calls of one load. */
    method SetPrefs(p: GamePrefs)
      requires Valid()
      modifies this`viewMode, this`difficulty, this`soundEnabled
      ensures Valid() && Prefs() == p
    {
      viewMode, difficulty, soundEnabled := p.viewMode, p.difficulty, p.soundEnabled;
    }
  }

  /**
   * A geometry other than the shipped one, with a goal lower than a tenth
   * of the window: every unblocked shot flies over it, so a match can end level.
   */
  const LowGoalPitch := Pitch(400.0, 800.0, 320.0, 40.0)

  /** A double tap from the centre on the low goal, with a first draw above every save rate. */
  method ShootPastKeeper(m: Match)
    requires m.Valid() && m.gameState == Aiming && m.tapCount == 0
    modifies m
    ensures m.Valid() && m.gameState == Shooting && m.flightPending && !m.shouldKeeperBlock
    ensures m.shotDestination.x == 0.0 && m.tapCount == 0
    ensures m.shots == old(m.shots) && m.totalShots == old(m.totalShots)
  {
    var first := m.HandleTap(0.0, 0.99, 0.0);
    var second := m.HandleTap(0.0, 0.99, 0.0);
  }

  /** One shot the keeper lets through on the low goal, from the first tap to the end of the result pause. */
  method KickOverLowGoal(m: Match)
    requires m.Valid() && m.pitch == LowGoalPitch && m.gameState == Aiming && m.tapCount == 0
    modifies m
    ensures m.Valid() && m.tapCount == 0 && m.totalShots == old(m.totalShots)
    ensures m.shots == old(m.shots) + [Shot(Missed, |old(m.shots)| + 1)]
    ensures Count(m.shots, Goal) == Count(old(m.shots), Goal) && Count(m.shots, Saved) == Count(old(m.shots), Saved)
    ensures |m.shots| < m.totalShots ==> m.gameState == Aiming
    ensures |m.shots| >= m.totalShots ==>
              m.gameState == GameOver &&
              m.suddenDeathPending == (if Count(m.shots, Goal) == Count(m.shots, Saved) then Some(m.totalShots) else None)
  {
    ShootPastKeeper(m);
    m.AnimationComplete();
    CountAppend(old(m.shots), Shot(Missed, |old(m.shots)| + 1), Goal);
    CountAppend(old(m.shots), Shot(Missed, |old(m.shots)| + 1), Saved);
    m.ResultTimerFires();
  }

  /**
   * Five shots over the low goal end 0-0, which schedules sudden death; a
   * restart during the tie message leaves that callback pending, and when it
   * fires the fresh match is given six shots.
   */
  method StaleSuddenDeathAsWritten() returns (totalShots: nat, taken: nat)
    ensures totalShots == 6 && taken == 0
  {
    var store := new Store(None);
    var m := new Match(LowGoalPitch, store);
    KickOverLowGoal(m);
    KickOverLowGoal(m);
    KickOverLowGoal(m);
    KickOverLowGoal(m);
    KickOverLowGoal(m);
    assert m.suddenDeathPending == Some(5);
    m.RestartGameAsWritten();
    m.SuddenDeathTimerFires();
    totalShots, taken := m.totalShots, |m.shots|;
  }

  /** The same match with the callback cancelled on restart: the fresh match keeps five shots. */
  method StaleSuddenDeathCorrected() returns (totalShots: nat, taken: nat)
    ensures totalShots == 5 && taken == 0
  {
    var store := new Store(None);
    var m := new Match(LowGoalPitch, store);
    KickOverLowGoal(m);
    KickOverLowGoal(m);
    KickOverLowGoal(m);
    KickOverLowGoal(m);
    KickOverLowGoal(m);
    m.RestartGame();
    m.SuddenDeathTimerFires();
    totalShots, taken := m.totalShots, |m.shots|;
  }
}
