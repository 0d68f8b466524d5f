/**
 * The declarations of the table (ModuleGame.h): collision tags, the game's
 * four states, the player's record, the sizes of the animation tables and the
 * initial values of the table's flags and counters.
 */
module GameDefs {
  import Units
  import Physics

  // Collision tags, the only meaning a contact carries to the game.
  const NoInteraction: int := 1
  const LeftImpulser: int := 2
  const RightImpulser: int := 3
  const Points: int := 5
  const Impulser: int := 6
  const PikachuImpulser: int := 7
  const SpringImpulser: int := 8
  const Dead: int := 9
  const StartBlocker: int := 10
  /** The Chinchou bumpers' tag. ModuleGame.cpp uses it, but ModuleGame.h does not declare it. */
  const ChinchouBumper: int := 11

  const AllTags: seq<int> := [NoInteraction, LeftImpulser, RightImpulser, Points, Impulser,
                              PikachuImpulser, SpringImpulser, Dead, StartBlocker, ChinchouBumper]

  /** The tags are pairwise distinct and only NoInteraction is below the dispatch threshold. */
  lemma TagsAreDistinct()
    ensures forall i, j :: 0 <= i < j < |AllTags| ==> AllTags[i] != AllTags[j]
    ensures forall i :: 0 <= i < |AllTags| ==>
      (AllTags[i] < Physics.SignificantTag <==> AllTags[i] == NoInteraction)
  {
  }

  datatype State = INGAME | DEAD | SCORE | WIN

  datatype PlayerStats = PlayerStats(bestScore: int, actualScore: int, lifes: int)

  /** A fresh player: no best score yet, no score, three lives. */
  const FreshPlayer: PlayerStats := PlayerStats(0, 0, 3)

  // Sizes of the animation tables: the indices the table uses must stay below these.
  const SpoinkFrameSlots: int := 8
  const PikachuFrameSlots: int := 2
  const LatiasFrameSlots: int := 14
  /** Slot 0 of the Latias table is never loaded; the index starts at 1. */
  const LatiasFirstFrame: int := 1
  /** Chinchou, Makuhita and Chikorita have two idle frames each. */
  const IdleFrameSlots: int := 2

  /** Where the ball is spawned, in pixels: `{ 243 * 2, 250 * 2 }`. */
  const InitBallX: int := 243 * 2
  const InitBallY: int := 250 * 2

  /** The static anchors RightFlipper and LeftFlipper hinge on, in pixels. */
  const RightAnchorX: int := 305
  const LeftAnchorX: int := 175
  const AnchorY: int := 790

  /** The motor speeds CreateFlipper gives the two flipper joints on a screen `screenWidth` wide. */
  function StartMotors(screenWidth: nat): Motors {
    Motors(Physics.FlipperMotorSpeed(Physics.FlipperSide(Units.PixelPoint(RightAnchorX, AnchorY), screenWidth)),
           Physics.FlipperMotorSpeed(Physics.FlipperSide(Units.PixelPoint(LeftAnchorX, AnchorY), screenWidth)))
  }

  /**
   * Each flipper gets the motor of its own side, right at +10 and left at
   * -10, exactly when the screen is 350 to 609 pixels wide.
   */
  lemma StartMotorsBySide(screenWidth: nat)
    ensures StartMotors(screenWidth) == Motors(10.0, -10.0) <==> 350 <= screenWidth < 610
  {
    Physics.FlipperSideAtPixel(RightAnchorX, AnchorY, screenWidth);
    Physics.FlipperSideAtPixel(LeftAnchorX, AnchorY, screenWidth);
  }

  /** The launcher: which impulser armed it, the Spoink charge animation, the plunger motor speed. */
  datatype Launcher = Launcher(canImpulse: bool, basicImpulser: bool, changeAnimation: bool, plungerSpeed: real)

  /** The extra-life reward: whether it has been closed, and the banner's frame counter. */
  datatype Reward = Reward(extralife: bool, textCounter: int)

  /** The start gate: ball past the gate, blocker armed once, blocker body enabled. */
  datatype Gate = Gate(start: bool, oneTime: bool, blockerEnabled: bool)

  /** The round: the ball is lost, the kicker contact flags, and the two shared frame counters. */
  datatype Round = Round(dead: bool, contactLeft: bool, contactRight: bool, cnt: int, cntAnimation: int)

  /** The animation indices; `currentFrame` is Spoink's. */
  datatype Sprites = Sprites(currentFrame: int, currentFramePikachu: int, currentFrameChinchou: int,
                             currentFrameMakuhita: int, currentFrameChikorita: int,
                             currentFramesLatias: int, backwards: bool)

  /** The flipper motor speeds. */
  datatype Motors = Motors(rightFlipperSpeed: real, leftFlipperSpeed: real)

  /**
   * The gameplay state of the table: the fields Update and OnCollision read
   * and write, grouped by the part of the table they belong to, together
   * with the motor speeds they command and whether the ball has been spawned.
   */
  datatype TableState = TableState(
    state: State,
    player: PlayerStats,
    launcher: Launcher,
    reward: Reward,
    gate: Gate,
    round: Round,
    sprites: Sprites,
    motors: Motors,
    ballSpawned: bool)

  /**
   * The table after Start: in game, a fresh player, every flag down, every
   * counter at zero except the Latias frame, the plunger motor at rest, each
   * flipper motor as CreateFlipper configured it for its anchor, and the
   * blocker disabled. Fields the header leaves uninitialised start false or 0.
   */
  ghost predicate IsInitial(s: TableState, screenWidth: nat) {
    && s.state == INGAME
    && s.player == FreshPlayer
    && s.launcher == Launcher(false, false, false, 0.0)
    && s.reward == Reward(false, 0)
    && s.gate == Gate(false, false, false)
    && s.round == Round(false, false, false, 0, 0)
    && s.sprites == Sprites(0, 0, 0, 0, 0, LatiasFirstFrame, false)
    && s.motors == StartMotors(screenWidth)
    && !s.ballSpawned
  }
}
