/**
 * The table object (ModuleGame): its gameplay fields, updated in place by
 * Update once per frame and by OnCollision once per reported contact. Each
 * method runs the source's statements on the fields and is proved to leave
 * the table exactly as the corresponding rule in GameRules says.
 *
 * The header's flat members are kept in record-valued fields grouped by the
 * part of the table they belong to, as the header already does for `player`:
 * `cnt++` on the table is `round := round.(cnt := round.cnt + 1)` here.
 */
module Game {
  import opened Wrappers
  import opened Units
  import Physics
  import opened GameDefs
  import opened GameRules

  class ModuleGame {
    var state: State
    var player: PlayerStats
    /** canImpulse, basicImpulser, changeAnimation, and the Spoink joint's motor speed. */
    var launcher: Launcher
    /** extralife, textCounter. */
    var reward: Reward
    /** start, oneTime, and whether the blocker body collides. */
    var gate: Gate
    /** dead, contactLeft, contactRight, cnt, cntAnimation. */
    var round: Round
    /** The animation indices. */
    var sprites: Sprites
    /** The flipper revolute joints' motor speeds. */
    var motors: Motors
    /** Whether `ball` points at a Ball. */
    var ballSpawned: bool

    /** The fields, read as one table state. */
    function Snap(): TableState
      reads this
    {
      TableState(state, player, launcher, reward, gate, round, sprites, motors, ballSpawned)
    }

    /**
     * The member initialisers, the flipper and spring joints as created, and
     * Start's INGAME, on a screen `screenWidth` pixels wide.
     */
    constructor(screenWidth: nat)
      ensures IsInitial(Snap(), screenWidth)
    {
      state := INGAME;
      player := FreshPlayer;
      launcher := Launcher(false, false, false, 0.0);
      reward := Reward(false, 0);
      gate := Gate(false, false, false);
      round := Round(false, false, false, 0, 0);
      sprites := Sprites(0, 0, 0, 0, 0, LatiasFirstFrame, false);
      motors := StartMotors(screenWidth);
      ballSpawned := false;
    }

    /**
     * A contact with a tagged body: set the flags for the tag, then shoot the
     * ball with the tag's force; with no ball yet, that is a crash.
     */
    method OnCollision(dir: int) returns (r: Result<Vec2, CallbackError>)
      modifies this
      ensures r.Err? <==> !old(ballSpawned)
      ensures r.Ok? ==> Callback(old(Snap()), dir) == Ok(CollisionResult(Snap(), r.value))
    {
      var force := Vec2(0.0, 0.0);
      if dir == SpringImpulser || dir == PikachuImpulser || dir == Impulser {
        launcher := launcher.(canImpulse := true);
        if dir == PikachuImpulser || dir == Impulser {
          launcher := launcher.(basicImpulser := true);
        }
      }
      if dir == LeftImpulser {
        round := round.(contactLeft := true);
        force := Vec2(0.4, -0.9);
      } else if dir == RightImpulser {
        round := round.(contactRight := true);
        force := Vec2(-0.4, -0.9);
      } else if dir == Points {
        player := player.(actualScore := player.actualScore + 100);
        launcher := launcher.(canImpulse := false);
        launcher := launcher.(basicImpulser := false);
      } else if dir == Dead {
        round := round.(dead := true);
      }
      if dir == SpringImpulser {
        launcher := launcher.(canImpulse := true);
      }
      if dir == StartBlocker && !gate.start {
        gate := gate.(start := true);
      }
      if ballSpawned {
        r := Ok(force);
      } else {
        r := Err(NullBall);
      }
    }

    /** One frame: what it does to the table, and what it asks of the ball. */
    method Update(inp: FrameInput) returns (ball: seq<BallCommand>)
      modifies this
      ensures FrameResult(Snap(), ball) == FrameStep(old(Snap()), inp)
    {
      match state
      case INGAME => ball := UpdateInGame(inp);
      case DEAD => UpdateGameOver(inp.keySpace); ball := [];
      case SCORE => UpdateScore(); ball := [];
      case WIN => UpdateWin(inp.keySpace); ball := [];
    }

    method UpdateInGame(inp: FrameInput) returns (ball: seq<BallCommand>)
      requires state == INGAME
      modifies this
      ensures FrameResult(Snap(), ball) == InGameFrame(old(Snap()), inp)
    {
      ghost var s := Snap();
      UpdateBlocker();
      var spawn := EnsureBall();
      AnimateFrames(inp);
      RewardExtraLife();
      assert Snap() == Prepared(s, inp);
      var shot := HandleLauncher(inp.keyDown);
      MovePlunger(inp.plungerTranslation, inp.plungerLower, inp.plungerUpper);
      MoveFlippers(inp);
      assert Snap() == Controls(Prepared(s, inp), inp);
      var reset := ManageLives(inp.latiasTick);
      CheckGameOver();
      ball := spawn + shot + reset;
    }

    method UpdateBlocker()
      modifies this
      ensures Snap() == old(Snap()).(gate := ArmBlocker(old(gate)))
    {
      if gate.start && !gate.oneTime {
        gate := gate.(blockerEnabled := true);
        gate := gate.(oneTime := true);
      }
    }

    method EnsureBall() returns (spawn: seq<BallCommand>)
      modifies this
      ensures Snap() == old(Snap()).(ballSpawned := true)
      ensures spawn == if old(ballSpawned) then [] else [SpawnBall(InitBallX, InitBallY)]
    {
      spawn := [];
      if !ballSpawned {
        spawn := [SpawnBall(InitBallX, InitBallY)];
        ballSpawned := true;
      }
    }

    method AnimateFrames(inp: FrameInput)
      modifies this
      ensures Snap() == old(Snap()).(sprites := AnimateSprites(old(sprites), launcher.changeAnimation, inp))
    {
      AnimatePikachu(inp.pikachuTick);
      AnimateSpoink(inp.spoinkTick);
      AnimateChinchou(inp.chinchouTick);
      AnimateMakuhita(inp.makuhitaTick);
      AnimateChikorita(inp.chikoritaTick);
    }

    /** Pikachu's two frames. */
    method AnimatePikachu(tick: bool)
      modifies this
      ensures Snap() == old(Snap()).(sprites := old(sprites).(
                currentFramePikachu := Cycle(old(sprites).currentFramePikachu, tick, 2, 0)))
    {
      if tick {
        sprites := sprites.(currentFramePikachu := sprites.currentFramePikachu + 1);
        if sprites.currentFramePikachu >= 2 { sprites := sprites.(currentFramePikachu := 0); }
      }
    }

    /** The Chinchou bumpers' shared frame index, idle or hit. */
    method AnimateChinchou(tick: bool)
      modifies this
      ensures Snap() == old(Snap()).(sprites := old(sprites).(
                currentFrameChinchou := Cycle(old(sprites).currentFrameChinchou, tick, 2, 0)))
    {
      if tick {
        sprites := sprites.(currentFrameChinchou := sprites.currentFrameChinchou + 1);
        if sprites.currentFrameChinchou >= 2 { sprites := sprites.(currentFrameChinchou := 0); }
      }
    }

    /** Makuhita's two idle frames. */
    method AnimateMakuhita(tick: bool)
      modifies this
      ensures Snap() == old(Snap()).(sprites := old(sprites).(
                currentFrameMakuhita := Cycle(old(sprites).currentFrameMakuhita, tick, 2, 0)))
    {
      if tick {
        sprites := sprites.(currentFrameMakuhita := sprites.currentFrameMakuhita + 1);
        if sprites.currentFrameMakuhita >= 2 { sprites := sprites.(currentFrameMakuhita := 0); }
      }
    }

    /** Chikorita's two idle frames. */
    method AnimateChikorita(tick: bool)
      modifies this
      ensures Snap() == old(Snap()).(sprites := old(sprites).(
                currentFrameChikorita := Cycle(old(sprites).currentFrameChikorita, tick, 2, 0)))
    {
      if tick {
        sprites := sprites.(currentFrameChikorita := sprites.currentFrameChikorita + 1);
        if sprites.currentFrameChikorita >= 2 { sprites := sprites.(currentFrameChikorita := 0); }
      }
    }

    /** Spoink idles through frames 0..4, and loops over 5..6 while the plunger is charged. */
    method AnimateSpoink(tick: bool)
      modifies this
      ensures Snap() == old(Snap()).(sprites := old(sprites).(
                currentFrame := if !launcher.changeAnimation then Cycle(old(sprites).currentFrame, tick, 5, 0)
                                else Cycle(old(sprites).currentFrame, tick, 7, 5)))
    {
      if !launcher.changeAnimation {
        if tick {
          sprites := sprites.(currentFrame := sprites.currentFrame + 1);
          if sprites.currentFrame >= 5 { sprites := sprites.(currentFrame := 0); }
        }
      } else {
        if tick {
          sprites := sprites.(currentFrame := sprites.currentFrame + 1);
          if sprites.currentFrame >= 7 { sprites := sprites.(currentFrame := 5); }
        }
      }
    }

    method RewardExtraLife()
      modifies this
      ensures Snap() == ExtraLife(old(Snap()))
    {
      if player.actualScore >= 100 && !reward.extralife {
        if reward.textCounter == 0 {
          player := player.(lifes := player.lifes + 1);
        }
        if reward.textCounter == 160 {
          reward := reward.(extralife := true);
          reward := reward.(textCounter := 0);
        }
        reward := reward.(textCounter := reward.textCounter + 1);
      }
    }

    method HandleLauncher(down: Key) returns (shot: seq<BallCommand>)
      modifies this
      ensures Snap() == old(Snap()).(launcher := Impulse(old(launcher), down))
      ensures shot == if FiresBasicShot(old(launcher), down) then [ShootBall(BasicShot)] else []
    {
      shot := [];
      if launcher.canImpulse {
        if launcher.basicImpulser {
          if down.released {
            shot := [ShootBall(Vec2(0.0, -0.7))];
            launcher := launcher.(canImpulse := false);
            launcher := launcher.(basicImpulser := false);
          }
        } else {
          if down.down {
            launcher := launcher.(changeAnimation := true);
            launcher := launcher.(plungerSpeed := -0.5);
          } else if down.released {
            launcher := launcher.(changeAnimation := false);
            launcher := launcher.(plungerSpeed := 200.0);
            launcher := launcher.(canImpulse := false);
          }
        }
      }
    }

    method MovePlunger(translation: real, lower: real, upper: real)
      modifies this
      ensures Snap() == old(Snap()).(launcher := old(launcher).(
                plungerSpeed := ClampPlunger(old(launcher).plungerSpeed, translation, lower, upper)))
    {
      if translation >= upper - 0.001 {
        launcher := launcher.(plungerSpeed := -0.2);
      } else if translation <= lower + 0.001 {
        launcher := launcher.(plungerSpeed := 0.0);
      }
    }

    method MoveFlippers(inp: FrameInput)
      modifies this
      ensures Snap() == old(Snap()).(motors := Flippers(old(motors), inp))
    {
      if inp.keyRight.pressed {
        motors := motors.(rightFlipperSpeed := -4.0);
      } else if inp.keyRight.released {
        motors := motors.(rightFlipperSpeed := 4.0);
      }
      if inp.keyLeft.pressed {
        motors := motors.(leftFlipperSpeed := 4.0);
      } else if inp.keyLeft.released {
        motors := motors.(leftFlipperSpeed := -4.0);
      }
    }

    method ManageLives(latiasTick: bool) returns (reset: seq<BallCommand>)
      modifies this
      ensures Snap() == Lives(old(Snap()), latiasTick)
      ensures reset == if DeathResets(old(Snap())) then [ResetBall(BallResetPosition)] else []
    {
      reset := [];
      if round.dead {
        if round.cnt < 1500 && player.lifes != 1 {
          AnimateDeath(latiasTick);
        } else {
          reset := [ResetBall(Vec2(9.7, 10.0))];
          ResetRound();
        }
      } else {
        FlashImpulsers();
      }
    }

    method AnimateDeath(latiasTick: bool)
      modifies this
      ensures Snap() == DyingStep(old(Snap()), latiasTick)
    {
      if round.cnt <= 150 || round.cnt >= 1200 {
        round := round.(cntAnimation := round.cntAnimation + 5);
      } else {
        AnimateLatias(latiasTick);
      }
      round := round.(cnt := round.cnt + 5);
    }

    /** Latias flies back and forth over frames 2..13. */
    method AnimateLatias(tick: bool)
      modifies this
      ensures Snap() == old(Snap()).(sprites := LatiasStep(old(sprites), tick))
    {
      if tick {
        if sprites.backwards {
          sprites := sprites.(currentFramesLatias := sprites.currentFramesLatias - 1);
        } else {
          sprites := sprites.(currentFramesLatias := sprites.currentFramesLatias + 1);
        }
        if sprites.currentFramesLatias >= 13 {
          sprites := sprites.(backwards := true);
        } else if sprites.currentFramesLatias <= 2 {
          sprites := sprites.(backwards := false);
        }
      }
    }

    method ResetRound()
      modifies this
      ensures Snap() == ChargeDeath(old(Snap()))
    {
      player := player.(lifes := player.lifes - 1);
      gate := gate.(oneTime := false);
      gate := gate.(start := false);
      gate := gate.(blockerEnabled := false);
      round := round.(dead := false);
      round := round.(cntAnimation := 0);
      round := round.(cnt := 0);
    }

    method FlashImpulsers()
      modifies this
      ensures Snap() == old(Snap()).(round := ImpulserFlash(old(round)))
    {
      if round.contactLeft && round.cnt < 12 {
        round := round.(cnt := round.cnt + 1);
      } else if !round.contactRight {
        round := round.(cnt := 0);
        round := round.(contactLeft := false);
      }
      if round.contactRight && round.cnt < 12 {
        round := round.(cnt := round.cnt + 1);
      } else if !round.contactLeft {
        round := round.(cnt := 0);
        round := round.(contactRight := false);
      }
    }

    method CheckGameOver()
      modifies this
      ensures Snap() == Outcome(old(Snap()))
    {
      if player.lifes == 0 {
        if player.actualScore < player.bestScore || player.actualScore == 0 {
          state := DEAD;
        } else {
          state := WIN;
        }
      }
    }

    method UpdateGameOver(space: Key)
      modifies this
      ensures Snap() == GameOverFrame(old(Snap()), space)
    {
      if round.cnt >= 80 { round := round.(cnt := 0); }
      round := round.(cnt := round.cnt + 1);
      if space.pressed {
        state := SCORE;
        player := player.(lifes := 3);
        round := round.(cnt := 0);
      }
    }

    method UpdateScore()
      modifies this
      ensures Snap() == ScoreFrame(old(Snap()))
    {
      if player.actualScore > player.bestScore {
        player := player.(bestScore := player.actualScore);
      }
      player := player.(actualScore := 0);
      state := INGAME;
    }

    method UpdateWin(space: Key)
      modifies this
      ensures Snap() == WinFrame(old(Snap()), space)
    {
      if round.cnt >= 40 { round := round.(cnt := 0); }
      round := round.(cnt := round.cnt + 1);
      if space.pressed {
        state := SCORE;
        player := player.(lifes := 3);
        round := round.(cnt := 0);
      }
    }
  }
}
