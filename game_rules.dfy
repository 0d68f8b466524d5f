/**
 * The rules of the table (ModuleGame::Update and ModuleGame::OnCollision) as
 * functions on TableState, and what they guarantee. The class in game.dfy
 * runs the same rules step by step on its fields and is proved to agree.
 *
 * Inputs replace what Update polls: key edges, one "timer elapsed" flag per
 * animation timer, and the plunger joint's translation and limits.
 */
module GameRules {
  import opened Wrappers
  import opened Units
  import opened GameDefs

  /** raylib's key queries for one key in one frame. */
  datatype Key = Key(pressed: bool, down: bool, released: bool)

  datatype FrameInput = FrameInput(
    keyDown: Key, keyLeft: Key, keyRight: Key, keySpace: Key,
    pikachuTick: bool, spoinkTick: bool, chinchouTick: bool,
    makuhitaTick: bool, chikoritaTick: bool, latiasTick: bool,
    plungerTranslation: real, plungerLower: real, plungerUpper: real)

  /** What a frame does to the ball besides what it does to the table. */
  datatype BallCommand =
    | SpawnBall(x: int, y: int)      // new Ball at a pixel position
    | ShootBall(force: Vec2)         // Ball::ShootBall, a linear impulse
    | ResetBall(position: Vec2)      // Ball::updatePosition, in metres

  datatype FrameResult = FrameResult(next: TableState, ball: seq<BallCommand>)
  datatype CollisionResult = CollisionResult(next: TableState, force: Vec2)

  const NoForce: Vec2 := Vec2(0.0, 0.0)
  const LeftKick: Vec2 := Vec2(0.4, -0.9)
  const RightKick: Vec2 := Vec2(-0.4, -0.9)
  const BasicShot: Vec2 := Vec2(0.0, -0.7)
  const BallResetPosition: Vec2 := Vec2(9.7, 10.0)

  // Plunger and flipper motor commands.
  const PlungerCharge: real := -0.5
  const PlungerRelease: real := 200.0
  const PlungerReturn: real := -0.2
  const PlungerStop: real := 0.0
  const PlungerSlack: real := 0.001
  const FlipperSpeed: real := 4.0

  /** How far `cnt` counts, in steps of 5, before a death is charged. */
  const DeathDelay: int := 1500
  const ExtraLifeScore: int := 100
  const ExtraLifeBanner: int := 160
  /** How many frames the kicker flash lasts. */
  const FlashFrames: int := 12

  // ================================================================ OnCollision

  predicate IsImpulserTag(dir: int) {
    dir == SpringImpulser || dir == PikachuImpulser || dir == Impulser
  }

  predicate IsBasicImpulserTag(dir: int) {
    dir == PikachuImpulser || dir == Impulser
  }

  /** OnCollision: the flags and score a tag changes, and the impulse given to the ball. */
  function Collide(s: TableState, dir: int): CollisionResult {
    var l1 := if IsImpulserTag(dir)
              then s.launcher.(canImpulse := true,
                               basicImpulser := IsBasicImpulserTag(dir) || s.launcher.basicImpulser)
              else s.launcher;
    var force := if dir == LeftImpulser then LeftKick
                 else if dir == RightImpulser then RightKick
                 else NoForce;
    var s2 := if dir == LeftImpulser then s.(launcher := l1, round := s.round.(contactLeft := true))
              else if dir == RightImpulser then s.(launcher := l1, round := s.round.(contactRight := true))
              else if dir == Points then
                s.(player := s.player.(actualScore := s.player.actualScore + 100),
                   launcher := l1.(canImpulse := false, basicImpulser := false))
              else if dir == Dead then s.(launcher := l1, round := s.round.(dead := true))
              else s.(launcher := l1);
    var s3 := if dir == SpringImpulser then s2.(launcher := s2.launcher.(canImpulse := true)) else s2;
    var s4 := if dir == StartBlocker && !s3.gate.start then s3.(gate := s3.gate.(start := true)) else s3;
    CollisionResult(s4, force)
  }

  /** Only Points scores, by exactly 100; no tag touches the best score or the lives. */
  lemma CollideScore(s: TableState, dir: int)
    ensures Collide(s, dir).next.player
         == s.player.(actualScore := s.player.actualScore + (if dir == Points then 100 else 0))
  {
  }

  /**
   * Impulser tags arm the launcher (only Pikachu and the generic impulser
   * choose the basic launch); Points disarms it; other tags leave it.
   */
  lemma CollideImpulseFlags(s: TableState, dir: int)
    ensures Collide(s, dir).next.launcher.canImpulse
         == (if IsImpulserTag(dir) then true else if dir == Points then false else s.launcher.canImpulse)
    ensures Collide(s, dir).next.launcher.basicImpulser
         == (if IsBasicImpulserTag(dir) then true
             else if dir == Points then false else s.launcher.basicImpulser)
  {
  }

  /** Dead raises `dead`, the start gate raises `start`, the kickers raise their contact flags. */
  lemma CollideEventFlags(s: TableState, dir: int)
    ensures Collide(s, dir).next.round.dead == (s.round.dead || dir == Dead)
    ensures Collide(s, dir).next.gate.start == (s.gate.start || dir == StartBlocker)
    ensures Collide(s, dir).next.round.contactLeft == (s.round.contactLeft || dir == LeftImpulser)
    ensures Collide(s, dir).next.round.contactRight == (s.round.contactRight || dir == RightImpulser)
  {
  }

  /** The kickers push the ball in mirror directions; every other tag pushes with zero force. */
  lemma CollideForce(s: TableState, dir: int)
    ensures var f := Collide(s, dir).force;
            (dir == LeftImpulser ==> f == Vec2(0.4, -0.9)) &&
            (dir == RightImpulser ==> f == Vec2(-0.4, -0.9)) &&
            (dir != LeftImpulser && dir != RightImpulser ==> f == Vec2(0.0, 0.0))
    ensures LeftKick.x == -RightKick.x && LeftKick.y == RightKick.y
  {
  }

  /** The fields OnCollision never writes agree in `s` and `t`. */
  predicate SameOutsideCollisionFlags(s: TableState, t: TableState) {
    && t.state == s.state
    && t.player.bestScore == s.player.bestScore && t.player.lifes == s.player.lifes
    && t.launcher.changeAnimation == s.launcher.changeAnimation
    && t.launcher.plungerSpeed == s.launcher.plungerSpeed
    && t.reward == s.reward
    && t.gate.oneTime == s.gate.oneTime && t.gate.blockerEnabled == s.gate.blockerEnabled
    && t.round.cnt == s.round.cnt && t.round.cntAnimation == s.round.cntAnimation
    && t.sprites == s.sprites
    && t.motors == s.motors
    && t.ballSpawned == s.ballSpawned
  }

  lemma CollideLeavesTheRest(s: TableState, dir: int)
    ensures SameOutsideCollisionFlags(s, Collide(s, dir).next)
  {
  }

  /** Delivering the same tag twice is the same as once, for every tag but Points. */
  lemma CollideIdempotent(s: TableState, dir: int)
    requires dir != Points
    ensures Collide(Collide(s, dir).next, dir) == Collide(s, dir)
  {
  }

  /** Points is the exception: a second delivery scores again. */
  lemma PointsAccumulate(s: TableState)
    ensures Collide(Collide(s, Points).next, Points).next.player.actualScore == s.player.actualScore + 200
  {
  }

  datatype CallbackError = NullBall

  /**
   * A collision callback as the physics module delivers it. After setting
   * the flags, OnCollision shoots the ball on every callback, without checking
   * that a ball exists: before the first frame in game has spawned one, that
   * dereferences a null pointer.
   */
  function Callback(s: TableState, dir: int): (r: Result<CollisionResult, CallbackError>)
    ensures r.Err? <==> !s.ballSpawned
    ensures r.Ok? ==> r.value.next == Collide(s, dir).next && r.value.force == Collide(s, dir).force
  {
    if s.ballSpawned then Ok(Collide(s, dir)) else Err(NullBall)
  }

  // ================================================================ Update

  function FrameStep(s: TableState, inp: FrameInput): FrameResult {
    match s.state
    case INGAME => InGameFrame(s, inp)
    case DEAD => FrameResult(GameOverFrame(s, inp.keySpace), [])
    case SCORE => FrameResult(ScoreFrame(s), [])
    case WIN => FrameResult(WinFrame(s, inp.keySpace), [])
  }

  /** Once the start gate has been passed, the blocker is enabled, one time. */
  function ArmBlocker(g: Gate): Gate {
    if g.start && !g.oneTime then g.(blockerEnabled := true, oneTime := true) else g
  }

  /** An animation index that advances on a tick and wraps from `limit` back to `restart`. */
  function Cycle(frame: int, tick: bool, limit: int, restart: int): int {
    if !tick then frame else if frame + 1 >= limit then restart else frame + 1
  }

  /**
   * The sprite animations: Pikachu, Spoink (the idle loop 0..4, or the
   * charging loop 5..6 while the plunger is charged), Chinchou, Makuhita and
   * Chikorita. Latias is animated by the lives block.
   */
  function AnimateSprites(sp: Sprites, charging: bool, inp: FrameInput): Sprites {
    sp.(currentFramePikachu := Cycle(sp.currentFramePikachu, inp.pikachuTick, 2, 0),
        currentFrame := if !charging then Cycle(sp.currentFrame, inp.spoinkTick, 5, 0)
                        else Cycle(sp.currentFrame, inp.spoinkTick, 7, 5),
        currentFrameChinchou := Cycle(sp.currentFrameChinchou, inp.chinchouTick, 2, 0),
        currentFrameMakuhita := Cycle(sp.currentFrameMakuhita, inp.makuhitaTick, 2, 0),
        currentFrameChikorita := Cycle(sp.currentFrameChikorita, inp.chikoritaTick, 2, 0))
  }

  /** The extra-life block runs this frame. */
  predicate ExtraLifeActive(s: TableState) {
    s.player.actualScore >= ExtraLifeScore && !s.reward.extralife
  }

  /** The frame in which the extra life is handed out. */
  predicate ExtraLifeDue(s: TableState) {
    ExtraLifeActive(s) && s.reward.textCounter == 0
  }

  /** The extra-life reward: +1 life at banner frame 0; the reward closes at frame 160. */
  function ExtraLife(s: TableState): TableState {
    if ExtraLifeActive(s) then
      var lifes := if s.reward.textCounter == 0 then s.player.lifes + 1 else s.player.lifes;
      var closes := s.reward.textCounter == ExtraLifeBanner;
      s.(player := s.player.(lifes := lifes),
         reward := Reward(closes, (if closes then 0 else s.reward.textCounter) + 1))
    else s
  }

  /** The basic (Pikachu or side) launcher fires when DOWN is released. */
  predicate FiresBasicShot(l: Launcher, down: Key) {
    l.canImpulse && l.basicImpulser && down.released
  }

  /** The launcher: basic shot on release, or the Spoink plunger charged while DOWN is held. */
  function Impulse(l: Launcher, down: Key): Launcher {
    if !l.canImpulse then l
    else if l.basicImpulser then
      if down.released then l.(canImpulse := false, basicImpulser := false) else l
    else if down.down then l.(changeAnimation := true, plungerSpeed := PlungerCharge)
    else if down.released then
      l.(changeAnimation := false, plungerSpeed := PlungerRelease, canImpulse := false)
    else l
  }

  /** The per-frame clamp on the plunger: near the top it returns, near the bottom it stops. */
  function ClampPlunger(speed: real, translation: real, lower: real, upper: real): real {
    if translation >= upper - PlungerSlack then PlungerReturn
    else if translation <= lower + PlungerSlack then PlungerStop
    else speed
  }

  function Flippers(m: Motors, inp: FrameInput): Motors {
    Motors(if inp.keyRight.pressed then -FlipperSpeed
           else if inp.keyRight.released then FlipperSpeed
           else m.rightFlipperSpeed,
           if inp.keyLeft.pressed then FlipperSpeed
           else if inp.keyLeft.released then -FlipperSpeed
           else m.leftFlipperSpeed)
  }

  /** The frame in which a death is charged: the animation is over, or it was the last life. */
  predicate DeathResets(s: TableState) {
    s.round.dead && !(s.round.cnt < DeathDelay && s.player.lifes != 1)
  }

  /** The Latias animation bounces between frames 2 and 13. */
  function LatiasStep(sp: Sprites, tick: bool): Sprites {
    if !tick then sp
    else
      var f := if sp.backwards then sp.currentFramesLatias - 1 else sp.currentFramesLatias + 1;
      sp.(currentFramesLatias := f,
          backwards := if f >= 13 then true else if f <= 2 then false else sp.backwards)
  }

  /** The kicker flash: `cnt` counts at most 12 frames while a contact flag is up. */
  function ImpulserFlash(r: Round): Round {
    var r1 := if r.contactLeft && r.cnt < FlashFrames then r.(cnt := r.cnt + 1)
              else if !r.contactRight then r.(cnt := 0, contactLeft := false)
              else r;
    if r1.contactRight && r1.cnt < FlashFrames then r1.(cnt := r1.cnt + 1)
    else if !r1.contactLeft then r1.(cnt := 0, contactRight := false)
    else r1
  }

  /** One frame of the death animation: Latias flies between 150 and 1200, and `cnt` climbs by 5. */
  function DyingStep(s: TableState, tick: bool): TableState {
    if s.round.cnt <= 150 || s.round.cnt >= 1200
    then s.(round := s.round.(cntAnimation := s.round.cntAnimation + 5, cnt := s.round.cnt + 5))
    else s.(sprites := LatiasStep(s.sprites, tick), round := s.round.(cnt := s.round.cnt + 5))
  }

  /** Charging a death: one life less, and the round and the start gate cleared. */
  function ChargeDeath(s: TableState): TableState {
    s.(player := s.player.(lifes := s.player.lifes - 1),
       gate := Gate(false, false, false),
       round := s.round.(dead := false, cntAnimation := 0, cnt := 0))
  }

  /** Lives management: the death animation, then the death charged; else the kicker flash. */
  function Lives(s: TableState, latiasTick: bool): TableState {
    if !s.round.dead then s.(round := ImpulserFlash(s.round))
    else if DeathResets(s) then ChargeDeath(s)
    else DyingStep(s, latiasTick)
  }

  /** With no lives left the game ends: a record is a win, anything else is game over. */
  function Outcome(s: TableState): TableState {
    if s.player.lifes == 0 then
      s.(state := if s.player.actualScore < s.player.bestScore || s.player.actualScore == 0
                  then DEAD else WIN)
    else s
  }

  /** The first half of a frame in game: the blocker, the ball, the sprites and the extra life. */
  function Prepared(s: TableState, inp: FrameInput): TableState {
    ExtraLife(s.(gate := ArmBlocker(s.gate), ballSpawned := true,
                 sprites := AnimateSprites(s.sprites, s.launcher.changeAnimation, inp)))
  }

  /** The player's controls: the launcher, the plunger clamp and the flippers. */
  function Controls(s: TableState, inp: FrameInput): TableState {
    var l := Impulse(s.launcher, inp.keyDown);
    s.(launcher := l.(plungerSpeed := ClampPlunger(l.plungerSpeed, inp.plungerTranslation,
                                                   inp.plungerLower, inp.plungerUpper)),
       motors := Flippers(s.motors, inp))
  }

  function InGameFrame(s: TableState, inp: FrameInput): FrameResult {
    var p := Prepared(s, inp);
    var c := Controls(p, inp);
    var spawn := if s.ballSpawned then [] else [SpawnBall(InitBallX, InitBallY)];
    var shot := if FiresBasicShot(p.launcher, inp.keyDown) then [ShootBall(BasicShot)] else [];
    var reset := if DeathResets(c) then [ResetBall(BallResetPosition)] else [];
    FrameResult(Outcome(Lives(c, inp.latiasTick)), spawn + shot + reset)
  }

  /** The game-over screen: a blink counter, and SPACE to go and tally the score. */
  function GameOverFrame(s: TableState, space: Key): TableState {
    if space.pressed
    then s.(state := SCORE, player := s.player.(lifes := 3), round := s.round.(cnt := 0))
    else s.(round := s.round.(cnt := (if s.round.cnt >= 80 then 0 else s.round.cnt) + 1))
  }

  /** The win screen: the same, with a faster blink. */
  function WinFrame(s: TableState, space: Key): TableState {
    if space.pressed
    then s.(state := SCORE, player := s.player.(lifes := 3), round := s.round.(cnt := 0))
    else s.(round := s.round.(cnt := (if s.round.cnt >= 40 then 0 else s.round.cnt) + 1))
  }

  /** The score tally: keep the better score, clear the current one, play again. */
  function ScoreFrame(s: TableState): TableState {
    s.(player := s.player.(bestScore := if s.player.actualScore > s.player.bestScore
                                        then s.player.actualScore else s.player.bestScore,
                           actualScore := 0),
       state := INGAME)
  }

  // ---------------------------------------------------------------- the parts of a frame

  /** The first half of a frame leaves the score, the launcher, the round and the motors alone. */
  lemma PreparedFrame(s: TableState, inp: FrameInput)
    ensures var p := Prepared(s, inp);
            p.state == s.state && p.launcher == s.launcher && p.round == s.round &&
            p.motors == s.motors &&
            p.player == s.player.(lifes := s.player.lifes + (if ExtraLifeDue(s) then 1 else 0)) &&
            p.reward == ExtraLife(s).reward &&
            p.sprites.currentFramesLatias == s.sprites.currentFramesLatias &&
            p.sprites.backwards == s.sprites.backwards
  {
  }

  /** The controls touch only the launcher and the motors. */
  lemma ControlsFrame(s: TableState, inp: FrameInput)
    ensures var c := Controls(s, inp);
            c == s.(launcher := c.launcher, motors := c.motors)
  {
  }

  /** The lives block leaves the launcher, the reward, the motors and the score alone. */
  lemma LivesFrame(s: TableState, tick: bool)
    ensures var t := Lives(s, tick);
            t.state == s.state && t.launcher == s.launcher && t.reward == s.reward &&
            t.motors == s.motors && t.player.actualScore == s.player.actualScore &&
            t.player.bestScore == s.player.bestScore
  {
  }

  // ---------------------------------------------------------------- single-frame facts

  function Max(a: int, b: int): int { if a >= b then a else b }

  /** SCORE: best = max(best, score), score = 0, lives untouched, back in game. */
  lemma ScoreTally(s: TableState, inp: FrameInput)
    requires s.state == SCORE
    ensures var t := FrameStep(s, inp).next;
            t.player == PlayerStats(Max(s.player.bestScore, s.player.actualScore), 0, s.player.lifes) &&
            t.state == INGAME && t.player.bestScore >= s.player.bestScore
    ensures FrameStep(s, inp).ball == []
  {
  }

  /** Only the tally writes the scores: every other frame leaves both as they were. */
  lemma FrameNeverScores(s: TableState, inp: FrameInput)
    requires s.state != SCORE
    ensures FrameStep(s, inp).next.player.actualScore == s.player.actualScore
    ensures FrameStep(s, inp).next.player.bestScore == s.player.bestScore
  {
    if s.state == INGAME {
      var p := Prepared(s, inp);
      PreparedFrame(s, inp);
      ControlsFrame(p, inp);
      LivesFrame(Controls(p, inp), inp.latiasTick);
    }
  }

  /**
   * The state machine: in game the table stays in game until the lives run
   * out, then goes to DEAD unless the score is a new, non-zero record (WIN);
   * DEAD and WIN wait for SPACE, which restores three lives and goes to SCORE.
   */
  lemma Transitions(s: TableState, inp: FrameInput)
    ensures var t := FrameStep(s, inp).next;
            match s.state
            case INGAME =>
              t.state == (if t.player.lifes != 0 then INGAME
                          else if s.player.actualScore < s.player.bestScore || s.player.actualScore == 0
                          then DEAD else WIN)
            case DEAD =>
              t.state == (if inp.keySpace.pressed then SCORE else DEAD) &&
              (inp.keySpace.pressed ==> t.player.lifes == 3 && t.round.cnt == 0)
            case WIN =>
              t.state == (if inp.keySpace.pressed then SCORE else WIN) &&
              (inp.keySpace.pressed ==> t.player.lifes == 3 && t.round.cnt == 0)
            case SCORE => t.state == INGAME
  {
    if s.state == INGAME {
      var p := Prepared(s, inp);
      PreparedFrame(s, inp);
      ControlsFrame(p, inp);
      LivesFrame(Controls(p, inp), inp.latiasTick);
    }
  }

  /** A win is a new non-zero record, and the tally that follows makes it the best score. */
  lemma WinIsRecord(s: TableState, inp: FrameInput, inp2: FrameInput)
    requires s.state == INGAME && FrameStep(s, inp).next.state == WIN
    ensures s.player.actualScore >= s.player.bestScore && s.player.actualScore != 0
    ensures var w := FrameStep(s, inp).next;
            var t := FrameStep(w, inp2).next;
            inp2.keySpace.pressed ==>
              FrameStep(t, inp).next.player.bestScore == s.player.actualScore
  {
    Transitions(s, inp);
    FrameNeverScores(s, inp);
  }

  /** The Spoink launcher: holding DOWN charges, releasing it fires and disarms. */
  lemma LauncherInput(l: Launcher, down: Key)
    requires l.canImpulse && !l.basicImpulser
    ensures var t := Impulse(l, down);
            (down.down ==> t.plungerSpeed == -0.5 && t.changeAnimation && t.canImpulse) &&
            (!down.down && down.released ==>
               t.plungerSpeed == 200.0 && !t.changeAnimation && !t.canImpulse) &&
            (!down.down && !down.released ==> t == l)
  {
  }

  /** The basic launcher shoots on release and disarms; the plunger is not touched. */
  lemma BasicLauncherInput(l: Launcher, down: Key)
    requires l.canImpulse && l.basicImpulser
    ensures FiresBasicShot(l, down) == down.released
    ensures Impulse(l, down) == (if down.released then l.(canImpulse := false, basicImpulser := false) else l)
  {
  }

  /** The clamp: the upper test wins, then the lower test, else the command stands. */
  lemma PlungerClamp(speed: real, t: real, lower: real, upper: real)
    ensures t >= upper - 0.001 ==> ClampPlunger(speed, t, lower, upper) == -0.2
    ensures t < upper - 0.001 && t <= lower + 0.001 ==> ClampPlunger(speed, t, lower, upper) == 0.0
    ensures lower + 0.001 < t < upper - 0.001 ==> ClampPlunger(speed, t, lower, upper) == speed
  {
  }

  /** After any frame in game the plunger command is the clamped launcher command. */
  lemma PlungerCommandEachFrame(s: TableState, inp: FrameInput)
    requires s.state == INGAME
    ensures FrameStep(s, inp).next.launcher.plungerSpeed
              == ClampPlunger(Impulse(s.launcher, inp.keyDown).plungerSpeed, inp.plungerTranslation,
                              inp.plungerLower, inp.plungerUpper)
  {
    var p := Prepared(s, inp);
    PreparedFrame(s, inp);
    LivesFrame(Controls(p, inp), inp.latiasTick);
  }

  /** RIGHT press drives the right flipper at -4 and release at +4; LEFT is the mirror image. */
  lemma FlipperCommands(s: TableState, inp: FrameInput)
    requires s.state == INGAME
    ensures var t := FrameStep(s, inp).next;
            t.motors.rightFlipperSpeed == (if inp.keyRight.pressed then -4.0
                                           else if inp.keyRight.released then 4.0
                                           else s.motors.rightFlipperSpeed) &&
            t.motors.leftFlipperSpeed == (if inp.keyLeft.pressed then 4.0
                                          else if inp.keyLeft.released then -4.0
                                          else s.motors.leftFlipperSpeed)
  {
    var p := Prepared(s, inp);
    PreparedFrame(s, inp);
    LivesFrame(Controls(p, inp), inp.latiasTick);
  }

  /** The extra-life block grants exactly when due, and closes the reward at banner frame 160. */
  lemma ExtraLifeRule(s: TableState)
    ensures ExtraLife(s).player.lifes == s.player.lifes + (if ExtraLifeDue(s) then 1 else 0)
    ensures ExtraLife(s).reward.extralife
         == (s.reward.extralife || (s.player.actualScore >= 100 && s.reward.textCounter == 160))
  {
  }

  /** Charging a death: lives drop by one and the round's flags and counters are cleared. */
  lemma DeathCharged(s: TableState, tick: bool)
    requires DeathResets(s)
    ensures var t := Lives(s, tick);
            t.player.lifes == s.player.lifes - 1 &&
            !t.round.dead && t.round.cnt == 0 && t.round.cntAnimation == 0 &&
            t.gate == Gate(false, false, false)
  {
  }

  /** With one life left the death is charged in the same frame, and the game ends. */
  lemma LastLifeEndsAtOnce(s: TableState, inp: FrameInput)
    requires s.state == INGAME && s.round.dead && s.player.lifes == 1 && !ExtraLifeDue(s)
    ensures var r := FrameStep(s, inp);
            r.next.player.lifes == 0 && !r.next.round.dead && r.next.round.cnt == 0 &&
            (r.next.state == DEAD || r.next.state == WIN) &&
            ResetBall(BallResetPosition) in r.ball
  {
    var p := Prepared(s, inp);
    PreparedFrame(s, inp);
    ControlsFrame(p, inp);
    var c := Controls(p, inp);
    assert DeathResets(c);
    DeathCharged(c, inp.latiasTick);
  }

  /** The kicker flash run for `n` frames with no further contacts and the ball not lost. */
  function FlashFor(r: Round, n: nat): Round
    decreases n
  {
    if n == 0 then r else FlashFor(ImpulserFlash(r), n - 1)
  }

  /** A lone kicker flash counts up to 12 and then clears its flag and the counter. */
  lemma {:induction false} LoneFlashEnds(r: Round)
    requires r.contactLeft && !r.contactRight && 0 <= r.cnt <= FlashFrames
    ensures FlashFor(r, FlashFrames + 1 - r.cnt) == r.(cnt := 0, contactLeft := false)
    decreases FlashFrames - r.cnt
  {
    if r.cnt < FlashFrames {
      LoneFlashEnds(ImpulserFlash(r));
    }
  }

  /**
   * With both kicker flags up once the counter has reached 12, neither branch
   * clears anything: the flash state stays as it is on every later frame.
   */
  lemma {:induction false} BothFlagsLatch(r: Round, n: nat)
    requires r.contactLeft && r.contactRight && r.cnt >= FlashFrames
    ensures FlashFor(r, n) == r
    decreases n
  {
    if n > 0 {
      assert ImpulserFlash(r) == r;
      BothFlagsLatch(r, n - 1);
    }
  }

  // ---------------------------------------------------------------- runs

  /** What reaches the table between frames: a frame, or a collision callback. */
  datatype Event = Tick(inp: FrameInput) | Hit(tag: int)

  /** The event ends the program: a callback with no ball. */
  predicate Crashes(s: TableState, e: Event) {
    e.Hit? && Callback(s, e.tag).Err?
  }

  function Apply(s: TableState, e: Event): TableState {
    match e
    case Tick(inp) => FrameStep(s, inp).next
    case Hit(tag) => Collide(s, tag).next
  }

  /** The table after a run of events; a run stops at the event that crashes it. */
  function Replay(s: TableState, evs: seq<Event>): TableState
    decreases |evs|
  {
    if evs == [] || Crashes(s, evs[0]) then s else Replay(Apply(s, evs[0]), evs[1..])
  }

  /** Whether a run crashes before it ends. */
  predicate CrashesIn(s: TableState, evs: seq<Event>)
    decreases |evs|
  {
    evs != [] && (Crashes(s, evs[0]) || CrashesIn(Apply(s, evs[0]), evs[1..]))
  }

  /** The Latias index stays in the loaded slots 1..13 and never runs past either end. */
  predicate LatiasInRange(f: int, backwards: bool) {
    && LatiasFirstFrame <= f < LatiasFrameSlots
    && (f >= 13 ==> backwards)
    && (f <= 2 ==> !backwards)
  }

  /** Every animation index inside its table; Spoink's slot 7 is never reached. */
  predicate SpritesInRange(sp: Sprites) {
    && 0 <= sp.currentFrame < SpoinkFrameSlots - 1
    && 0 <= sp.currentFramePikachu < PikachuFrameSlots
    && 0 <= sp.currentFrameChinchou < IdleFrameSlots
    && 0 <= sp.currentFrameMakuhita < IdleFrameSlots
    && 0 <= sp.currentFrameChikorita < IdleFrameSlots
    && LatiasInRange(sp.currentFramesLatias, sp.backwards)
  }

  /** Each game state holds the number of lives it is entered with. */
  predicate LivesByState(s: TableState) {
    match s.state
    case INGAME => s.player.lifes >= 1
    case DEAD => s.player.lifes == 0
    case WIN => s.player.lifes == 0
    case SCORE => s.player.lifes == 3
  }

  /** What every reachable table satisfies. */
  predicate Inv(s: TableState) {
    && SpritesInRange(s.sprites)
    && s.reward.textCounter >= 0
    && s.player.actualScore >= 0 && s.player.actualScore % 100 == 0
    && s.player.bestScore >= 0 && s.player.bestScore % 100 == 0
    && LivesByState(s)
  }

  lemma InitialSatisfiesInv(s: TableState, screenWidth: nat)
    requires IsInitial(s, screenWidth)
    ensures Inv(s)
  {
  }

  lemma LatiasStepInRange(sp: Sprites, tick: bool)
    requires LatiasInRange(sp.currentFramesLatias, sp.backwards)
    ensures var t := LatiasStep(sp, tick); LatiasInRange(t.currentFramesLatias, t.backwards)
  {
  }

  lemma AnimateSpritesInRange(sp: Sprites, charging: bool, inp: FrameInput)
    requires SpritesInRange(sp)
    ensures SpritesInRange(AnimateSprites(sp, charging, inp))
  {
  }

  /** The lives block keeps the sprites in range and the lives at least 1 while the game goes on. */
  lemma LivesKeepsRanges(s: TableState, tick: bool)
    requires SpritesInRange(s.sprites) && s.player.lifes >= 1
    ensures var t := Lives(s, tick);
            SpritesInRange(t.sprites) && t.player.lifes >= 0 &&
            (t.player.lifes == 0 ==> s.player.lifes == 1)
  {
    if s.round.dead && !DeathResets(s) {
      LatiasStepInRange(s.sprites, tick);
    }
  }

  lemma FrameKeepsInv(s: TableState, inp: FrameInput)
    requires Inv(s)
    ensures Inv(FrameStep(s, inp).next)
  {
    if s.state == INGAME {
      var p := Prepared(s, inp);
      AnimateSpritesInRange(s.sprites, s.launcher.changeAnimation, inp);
      PreparedFrame(s, inp);
      ControlsFrame(p, inp);
      var c := Controls(p, inp);
      LivesKeepsRanges(c, inp.latiasTick);
      LivesFrame(c, inp.latiasTick);
    }
  }

  lemma CollideKeepsInv(s: TableState, dir: int)
    requires Inv(s)
    ensures Inv(Collide(s, dir).next)
  {
    CollideLeavesTheRest(s, dir);
    CollideScore(s, dir);
  }

  lemma ApplyKeepsInv(s: TableState, e: Event)
    requires Inv(s)
    ensures Inv(Apply(s, e))
  {
    match e
    case Tick(inp) => FrameKeepsInv(s, inp);
    case Hit(tag) => CollideKeepsInv(s, tag);
  }

  /** Every table reached by any interleaving of frames and collisions keeps the invariant. */
  lemma {:induction false} ReplayKeepsInv(s: TableState, evs: seq<Event>)
    requires Inv(s)
    ensures Inv(Replay(s, evs))
    decreases |evs|
  {
    if evs != [] && !Crashes(s, evs[0]) {
      ApplyKeepsInv(s, evs[0]);
      ReplayKeepsInv(Apply(s, evs[0]), evs[1..]);
    }
  }

  /** So every animation index the table ever uses lies inside its table. */
  lemma AnimationIndicesInBounds(s0: TableState, screenWidth: nat, evs: seq<Event>)
    requires IsInitial(s0, screenWidth)
    ensures var sp := Replay(s0, evs).sprites;
            0 <= sp.currentFrame <= 6 && sp.currentFrame < SpoinkFrameSlots &&
            0 <= sp.currentFramePikachu < PikachuFrameSlots &&
            0 <= sp.currentFrameChinchou < IdleFrameSlots && 0 <= sp.currentFrameMakuhita < IdleFrameSlots &&
            0 <= sp.currentFrameChikorita < IdleFrameSlots &&
            LatiasFirstFrame <= sp.currentFramesLatias < LatiasFrameSlots
  {
    InitialSatisfiesInv(s0, screenWidth);
    ReplayKeepsInv(s0, evs);
  }

  lemma ApplyKeepsBest(s: TableState, e: Event)
    ensures Apply(s, e).player.bestScore >= s.player.bestScore
  {
    match e
    case Tick(inp) =>
      if s.state == SCORE { ScoreTally(s, inp); } else { FrameNeverScores(s, inp); }
    case Hit(tag) => CollideScore(s, tag);
  }

  /** The best score never decreases. */
  lemma {:induction false} BestScoreNeverDecreases(s: TableState, evs: seq<Event>)
    ensures Replay(s, evs).player.bestScore >= s.player.bestScore
    decreases |evs|
  {
    if evs != [] && !Crashes(s, evs[0]) {
      ApplyKeepsBest(s, evs[0]);
      BestScoreNeverDecreases(Apply(s, evs[0]), evs[1..]);
    }
  }

  // ---------------------------------------------------------------- the ball

  /** A frame in game always leaves a ball on the table, and spawns one exactly when there was none. */
  lemma FrameSpawnsBall(s: TableState, inp: FrameInput)
    requires s.state == INGAME
    ensures FrameStep(s, inp).next.ballSpawned
    ensures SpawnBall(InitBallX, InitBallY) in FrameStep(s, inp).ball <==> !s.ballSpawned
  {
    var p := Prepared(s, inp);
    PreparedFrame(s, inp);
    ControlsFrame(p, inp);
    LivesFrame(Controls(p, inp), inp.latiasTick);
  }

  lemma ApplyKeepsBall(s: TableState, e: Event)
    requires s.ballSpawned
    ensures Apply(s, e).ballSpawned
  {
    match e
    case Tick(inp) =>
      if s.state == INGAME { FrameSpawnsBall(s, inp); }
    case Hit(tag) => CollideLeavesTheRest(s, tag);
  }

  /** Nothing removes the ball once it is there, so no later callback crashes. */
  lemma {:induction false} BallStaysSpawned(s: TableState, evs: seq<Event>)
    requires s.ballSpawned
    ensures Replay(s, evs).ballSpawned
    ensures !CrashesIn(s, evs)
    decreases |evs|
  {
    if evs != [] {
      ApplyKeepsBall(s, evs[0]);
      BallStaysSpawned(Apply(s, evs[0]), evs[1..]);
    }
  }

  /** A callback before the first frame crashes, and the run ends there. */
  lemma ContactBeforeFirstFrameCrashes(s: TableState, screenWidth: nat, tag: int, evs: seq<Event>)
    requires IsInitial(s, screenWidth)
    ensures CrashesIn(s, [Hit(tag)] + evs)
    ensures Replay(s, [Hit(tag)] + evs) == s
  {
  }

  /** Once a frame in game has run, no run that follows it crashes. */
  lemma NoCrashAfterFirstFrame(s: TableState, inp: FrameInput, evs: seq<Event>)
    requires s.state == INGAME
    ensures !CrashesIn(s, [Tick(inp)] + evs)
  {
    FrameSpawnsBall(s, inp);
    BallStaysSpawned(Apply(s, Tick(inp)), evs);
    assert ([Tick(inp)] + evs)[1..] == evs;
  }

  // ---------------------------------------------------------------- the extra life

  /** Whether an event hands out the extra life. */
  function Granted(s: TableState, e: Event): nat {
    if e.Tick? && s.state == INGAME && ExtraLifeDue(s) then 1 else 0
  }

  /** The number of extra lives handed out along a run. */
  function Grants(s: TableState, evs: seq<Event>): nat
    decreases |evs|
  {
    if evs == [] || Crashes(s, evs[0]) then 0 else Granted(s, evs[0]) + Grants(Apply(s, evs[0]), evs[1..])
  }

  /** The extra life can still be handed out. */
  predicate ExtraLifeAvailable(s: TableState) {
    !s.reward.extralife && s.reward.textCounter == 0
  }

  /** Only the extra-life block touches the reward during a frame in game. */
  lemma FrameReward(s: TableState, inp: FrameInput)
    requires s.state == INGAME
    ensures FrameStep(s, inp).next.reward == ExtraLife(s).reward
  {
    var p := Prepared(s, inp);
    PreparedFrame(s, inp);
    ControlsFrame(p, inp);
    LivesFrame(Controls(p, inp), inp.latiasTick);
  }

  /** One event never makes the reward available again, and a grant uses it up. */
  lemma ApplyReward(s: TableState, e: Event)
    requires s.reward.textCounter >= 0
    ensures Apply(s, e).reward.textCounter >= 0
    ensures Granted(s, e) == 1 ==> ExtraLifeAvailable(s) && !ExtraLifeAvailable(Apply(s, e))
    ensures ExtraLifeAvailable(Apply(s, e)) ==> ExtraLifeAvailable(s)
  {
    match e
    case Tick(inp) =>
      if s.state == INGAME { FrameReward(s, inp); }
    case Hit(tag) => CollideLeavesTheRest(s, tag);
  }

  /** The extra life is handed out at most once, whatever happens afterwards. */
  lemma {:induction false} ExtraLifeAtMostOnce(s: TableState, evs: seq<Event>)
    requires s.reward.textCounter >= 0
    ensures Grants(s, evs) <= (if ExtraLifeAvailable(s) then 1 else 0)
    decreases |evs|
  {
    if evs != [] && !Crashes(s, evs[0]) {
      ApplyReward(s, evs[0]);
      ExtraLifeAtMostOnce(Apply(s, evs[0]), evs[1..]);
    }
  }

  // ---------------------------------------------------------------- a death episode

  predicate AllTicks(evs: seq<Event>) {
    forall i :: 0 <= i < |evs| ==> evs[i].Tick?
  }

  /** The tail of a run of frames is a run of frames. */
  lemma AllTicksTail(evs: seq<Event>)
    requires evs != [] && AllTicks(evs)
    ensures AllTicks(evs[1..])
  {
    forall i | 0 <= i < |evs[1..]| ensures evs[1..][i].Tick? { assert evs[1..][i] == evs[i + 1]; }
  }

  /** The grants of a run of frames followed by one more frame. */
  lemma {:induction false} GrantsSnoc(s: TableState, evs: seq<Event>, inp: FrameInput)
    requires AllTicks(evs)
    ensures Grants(s, evs + [Tick(inp)]) == Grants(s, evs) + Granted(Replay(s, evs), Tick(inp))
    decreases |evs|
  {
    if evs == [] {
      assert evs + [Tick(inp)] == [Tick(inp)];
      assert [Tick(inp)][1..] == [];
    } else {
      assert (evs + [Tick(inp)])[0] == evs[0];
      assert (evs + [Tick(inp)])[1..] == evs[1..] + [Tick(inp)];
      AllTicksTail(evs);
      GrantsSnoc(Apply(s, evs[0]), evs[1..], inp);
    }
  }

  /**
   * One frame of the death animation with more than one life: `cnt` climbs by 5,
   * and the extra life, if it falls due in this frame, is still handed out.
   */
  lemma DyingFrame(s: TableState, inp: FrameInput)
    requires s.state == INGAME && s.round.dead && s.player.lifes >= 2
    requires s.round.cnt < DeathDelay
    ensures var t := FrameStep(s, inp).next;
            t.state == INGAME && t.round.dead && t.round.cnt == s.round.cnt + 5 &&
            t.player == s.player.(lifes := s.player.lifes + (if ExtraLifeDue(s) then 1 else 0))
  {
    var p := Prepared(s, inp);
    PreparedFrame(s, inp);
    ControlsFrame(p, inp);
    var c := Controls(p, inp);
    assert !DeathResets(c);
    LivesFrame(c, inp.latiasTick);
  }

  /**
   * While the animation lasts (every frame starts below the delay), each frame adds
   * 5 to `cnt`, and the lives change only by the extra lives handed out meanwhile.
   */
  lemma {:induction false} DyingFrames(s: TableState, evs: seq<Event>)
    requires s.state == INGAME && s.round.dead && s.player.lifes >= 2
    requires AllTicks(evs) && s.round.cnt + 5 * |evs| < DeathDelay + 5
    ensures var t := Replay(s, evs);
            t.state == INGAME && t.round.dead && t.round.cnt == s.round.cnt + 5 * |evs| &&
            t.player == s.player.(lifes := s.player.lifes + Grants(s, evs))
    decreases |evs|
  {
    if evs != [] {
      DyingFrame(s, evs[0].inp);
      AllTicksTail(evs);
      DyingFrames(Apply(s, evs[0]), evs[1..]);
    }
  }

  /** The number of animation frames of a death that starts with `cnt` below the delay. */
  function DeathFrames(cnt: int): (n: nat)
    requires 0 <= cnt < DeathDelay
    ensures cnt + 5 * (n - 1) < DeathDelay <= cnt + 5 * n
  {
    (DeathDelay - cnt + 4) / 5
  }

  /**
   * A death episode with more than one life, from any `cnt` below the delay (the
   * kicker flash may leave it anywhere in 1..12): ⌈(1500 − cnt)/5⌉ frames of
   * animation, then the next frame charges exactly one life and clears the round.
   * Lives won from the extra life in the meantime are kept.
   */
  lemma DeathEpisode(s: TableState, evs: seq<Event>, last: FrameInput)
    requires s.state == INGAME && s.round.dead && s.player.lifes >= 2
    requires 0 <= s.round.cnt < DeathDelay
    requires AllTicks(evs) && |evs| == DeathFrames(s.round.cnt)
    ensures var t := Replay(s, evs);
            t.round.dead && t.round.cnt >= DeathDelay &&
            t.player == s.player.(lifes := s.player.lifes + Grants(s, evs))
    ensures var t := FrameStep(Replay(s, evs), last).next;
            t.player.lifes == s.player.lifes + Grants(s, evs + [Tick(last)]) - 1 && t.state == INGAME &&
            !t.round.dead && t.round.cnt == 0 && !t.gate.start && !t.gate.oneTime
  {
    DyingFrames(s, evs);
    GrantsSnoc(s, evs, last);
    var d := Replay(s, evs);
    var p := Prepared(d, last);
    PreparedFrame(d, last);
    ControlsFrame(p, last);
    var c := Controls(p, last);
    assert DeathResets(c);
    DeathCharged(c, last.latiasTick);
    LivesFrame(c, last.latiasTick);
  }
}
