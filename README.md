# Pinball table — a Dafny model

This project models the deterministic logic of a Box2D/raylib pinball table.
It covers four parts:

- **The table object and its rules** (`ModuleGame`).
  - `Update` runs once per frame over a four-state machine: `INGAME`, `DEAD`, `SCORE`, `WIN`.
  - In game, one frame does the following in order: arms the start blocker, spawns the ball, advances the sprite animations, hands out the extra life, runs the launcher (a basic shot or the Spoink plunger), clamps the plunger, commands the flipper motors, runs the lives block (the death animation and charging a death, or else the kicker flash), and decides win or game over.
  - `OnCollision` turns a contact tag into flag and score updates and an impulse for the ball.
- **The physics bridge** (`ModulePhysics`).
  - It covers what each body factory records on a `PhysBody` and how a chain's flat coordinate array becomes a closed loop.
  - It also covers how the flipper and spring joints are configured.
  - Finally, it covers who is told about which contact: `BeginContact`, and the sensor sweep in `PreUpdate`.
- **The declarations** of tags, game states, player defaults and animation table sizes.
- **The pixel/metre conversion macros.**

Modules:

- `Wrappers`: `Option` and `Result`.
- `Units`: the conversion macros and the gravity constants of `ModulePhysics.h`.
- `Physics`: the factories, joint definitions and contact dispatch of `ModulePhysics.cpp`.
  - Bodies are records of what was handed to Box2D.
  - Dispatch returns the sequence of `OnCollision` calls it makes.
- `GameDefs`: the declarations of `ModuleGame.h`, and the table state (`TableState`).
  - The table state is grouped by part: player, launcher, reward, start gate, round, sprites and motors.
  - It also holds `IsInitial`, the state after `Start`.
- `GameRules`: the table's rules as functions on `TableState` (`Collide`, `FrameStep` and its stages), and the lemmas about them. The lemmas cover:
  - single frames;
  - runs of any interleaving of frames and collisions (`Replay`);
  - the invariant every reachable table keeps;
  - the best score never falling;
  - the extra life being granted at most once;
  - the timing of a death.
- `Game`: the class `ModuleGame`.
  - Its fields are updated in place by `Update` and `OnCollision`.
  - Each method runs the source's statements and is proved to leave the fields exactly as the matching `GameRules` function says.

What comes from outside becomes a parameter or an input:

- The key queries become a `Key` record per key.
- Each animation timer becomes an "elapsed" flag.
- The plunger joint's translation comes in as an input, and so do its limits, which are `CreateSpring`'s ±1.5.
- Box2D's identity for a new body is a `key` parameter.
- `SCREEN_WIDTH` is defined in `Globals.h`; its value is a parameter.

What a frame does to the ball is returned as commands: spawn it, shoot it, or move it back to the launcher.

Three behaviours of the code that the model keeps:

- A chain with an odd number of coordinates is not rejected. The last coordinate is dropped (`size / 2` vertices).
- `BeginContact` notifies both sides with A's tag.
- The sensor sweep passes fixture A's body as both arguments, because it reads fixture A twice.

`OnCollision` shoots the ball on every callback without checking that the ball exists. A callback before the first frame in game is therefore a crash. The model returns it as an error (`GameRules.Callback`), and a run of events (`GameRules.Replay`) ends at such a crash.

## Model

| member | source | states |
|---|---|---|
| Units.PixelToMeters | CleanTemplate/Pinball-main/Pinball/Source/ModulePhysics.h:15 | a linear scale that multiplying by 50 undoes exactly |
| Units.MetersToPixels | CleanTemplate/Pinball-main/Pinball/Source/ModulePhysics.h:14 | the result is the floor of 50·m: at most 50·m and within one pixel of it |
| Units.PixelPoint | CleanTemplate/Pinball-main/Pinball/Source/ModulePhysics.h:15 | each coordinate of a pixel point is converted to metres separately |
| Units.WorldGravity | Pinball/Source/ModulePhysics.cpp:26 | the world is built with gravity (0, 0.6), the configured Y negated |
| Units.MeterPerPixelIsInverse | CleanTemplate/Pinball-main/Pinball/Source/ModulePhysics.h:11-12 | METER_PER_PIXEL is exactly 1 / PIXELS_PER_METER |
| Units.PixelRoundTrip | CleanTemplate/Pinball-main/Pinball/Source/ModulePhysics.h:11-15 | every integer pixel survives metres and back unchanged |
| Units.MetersRoundTrip | CleanTemplate/Pinball-main/Pinball/Source/ModulePhysics.h:14-15 | metres to pixels and back loses less than one pixel, and never rounds upward |
| Units.MetersToPixelsMonotone | CleanTemplate/Pinball-main/Pinball/Source/ModulePhysics.h:14 | METERS_TO_PIXELS never decreases |
| Physics.NewPhysBody | CleanTemplate/Pinball-main/Pinball/Source/ModulePhysics.h:22 | a new PhysBody has no listener, no body and no tag |
| Physics.WithListener | Pinball/Source/ModuleGame.cpp:12-19 | wrapping a body in an entity sets its listener and nothing else |
| Physics.TruncToInt | Pinball/Source/ModulePhysics.cpp:137-138 | a float-to-int cast truncates toward zero on both signs |
| Physics.HalfPixels | Pinball/Source/ModulePhysics.cpp:137-138 | `(int)(w * 0.5f)` is half of w, rounded toward zero |
| Physics.BoxShape | Pinball/Source/ModulePhysics.cpp:126-127 | the box's half extents, doubled and scaled back to pixels, are the width and height asked for |
| Physics.CreateCircle | Pinball/Source/ModulePhysics.cpp:64-87 | no tag and no listener; width = height = radius; density 1, not a sensor; placed at the converted point; the shape is a circle of exactly the radius in metres, which converts back to the same pixels |
| Physics.CreateRectangle | Pinball/Source/ModulePhysics.cpp:116-141 | tag = inf; width and height are the truncated half extents; a density 1 box, not a sensor |
| Physics.CreateRectangleSensor | Pinball/Source/ModulePhysics.cpp:143-170 | tag = inf; the full width and height are kept; the fixture is a sensor |
| Physics.CreateBumper | Pinball/Source/ModulePhysics.cpp:172-199 | tag = inf; width = height = radius; density 1 and restitution 1.5 (above 1, so the ball leaves faster) |
| Physics.SensorIsMarkedRectangle | Pinball/Source/ModulePhysics.cpp:116-170 | a sensor rectangle is the plain rectangle, with the sensor flag set and the full extents recorded |
| Physics.BumperIsTaggedBouncyCircle | Pinball/Source/ModulePhysics.cpp:64-87 | a bumper is the plain circle, with restitution 1.5 and a tag |
| Physics.Pairs | Pinball/Source/ModulePhysics.cpp:213 | a flat coordinate list gives exactly half as many vertices, rounded down |
| Physics.PairsAt | Pinball/Source/ModulePhysics.cpp:219-223 | vertex i is the converted point (points[2i], points[2i+1]) |
| Physics.PairsIgnoresOddTail | Pinball/Source/ModulePhysics.cpp:213-223 | a trailing odd coordinate never becomes part of a vertex |
| Physics.LoopEdges | Pinball/Source/ModulePhysics.cpp:225 | a loop has as many edges as vertices |
| Physics.LoopIsClosed | Pinball/Source/ModulePhysics.cpp:225 | each edge starts where the previous one ends, and the last edge returns to the first vertex |
| Physics.CreateChain | Pinball/Source/ModulePhysics.cpp:201-239 | the loop filling the array gives exactly size/2 vertices, vertex i from coordinates 2i and 2i+1; the result has tag = inf, width = height = 0, and the default fixture (no density, not a sensor) |
| Physics.SquareChainHasFourEdges | Pinball/Source/ModulePhysics.cpp:219-225 | four corners give four edges, and the last one returns to the first corner |
| Physics.TagOf | Pinball/Source/ModulePhysics.cpp:489 | the tag the dispatcher reads from a body; an unset id reads as 0 |
| Physics.FlipperSide | Pinball/Source/ModulePhysics.cpp:250 | a flipper is a right flipper exactly when its anchor's x exceeds 0.02·SCREEN_WIDTH/2 metres: the macro does not parenthesise its argument |
| Physics.FlipperSideAtPixel | Pinball/Source/ModulePhysics.cpp:250 | for an anchor on a whole pixel x, the flipper is a right flipper exactly when 2x > SCREEN_WIDTH |
| Physics.FlipperMotorSpeed | Pinball/Source/ModulePhysics.cpp:253-259 | a right flipper's motor runs at 10, a left one's at -10 |
| Physics.CreateFlipper | Pinball/Source/ModulePhysics.cpp:241-264 | the joint is about the centre of body B; limit and motor are enabled; torque 150; lower < 0 < upper; the motor speed is positive exactly for a right flipper |
| Physics.FlippersMirror | Pinball/Source/ModulePhysics.cpp:250-260 | the right flipper's limits are [-0.25π, 0.15π] with motor 10; the left flipper's arc and motor are the mirror image |
| Physics.CreateSpring | Pinball/Source/ModulePhysics.cpp:266-287 | the joint's first body is the second parameter; translation limits are ±1.5; both anchors at the origin; the axis is as given; limit and motor enabled, force 200 |
| Physics.BeginContact | Pinball/Source/ModulePhysics.cpp:481-497 | a null A is a crash (an error exactly then); otherwise at most two notifications, all carrying A's tag, and none when A's tag is below 2 |
| Physics.BeginContactReceivers | Pinball/Source/ModulePhysics.cpp:489-496 | A's listener hears (A, B, tag A) and B's listener hears (B, A, tag A), each exactly when it exists and A's tag is at least 2 |
| Physics.BeginContactIgnoresTagB | Pinball/Source/ModulePhysics.cpp:489 | B's tag never changes who is notified or with which tag |
| Physics.SceneryContactIsSilent | Pinball/Source/ModulePhysics.cpp:489 | two NoInteraction bodies produce no notifications |
| Physics.DrainContactNotifiesBall | Pinball/Source/ModulePhysics.cpp:489-496 | a drain sensor (tag 9, no listener) touching the listening ball sends the ball exactly one notification, with tag 9 |
| Physics.SensorReports | Pinball/Source/ModulePhysics.cpp:43-50 | a contact is reported when fixture A is a sensor, the fixtures touch, and A's body has user data with a listener |
| Physics.SensorNote | Pinball/Source/ModulePhysics.cpp:45-51 | a reported contact notifies A's listener with A as both bodies and A's tag |
| Physics.SensorNotes | Pinball/Source/ModulePhysics.cpp:41-53 | one sweep sends at most one notification per contact |
| Physics.SensorNotesAppend | Pinball/Source/ModulePhysics.cpp:41-53 | sweeping two lists one after the other gives the notifications of each, in order |
| Physics.SensorNotesSound | Pinball/Source/ModulePhysics.cpp:43-51 | every notification comes from a touching contact whose fixture A is a sensor with a listener |
| Physics.SensorNotesComplete | Pinball/Source/ModulePhysics.cpp:43-51 | every such contact is reported |
| Physics.SensorOnSideBIsSilent | Pinball/Source/ModulePhysics.cpp:43 | contacts whose fixture A is not a sensor are never reported |
| Physics.SensorSweep | Pinball/Source/ModulePhysics.cpp:41-53 | the loop over the contact list sends exactly the notifications SensorNotes describes, in list order |
| Physics.SteadyOverlapRepeats | Pinball/Source/ModulePhysics.cpp:37-53 | an overlap that lasts k world steps is reported k times |
| GameDefs.TagsAreDistinct | Pinball/Source/ModuleGame.h:28-39 | the tags are pairwise distinct, and only NoInteraction is below the dispatch threshold 2 |
| GameDefs.StartMotors | Pinball/Source/ModuleGame.cpp:721-722 | the motor speeds the two flipper joints start with: each is CreateFlipper's motor for the side its anchor (305, 790) or (175, 790) falls on |
| GameDefs.StartMotorsBySide | Pinball/Source/ModuleGame.cpp:721-722 | the right flipper starts at +10 and the left at -10 exactly when the screen is 350 to 609 pixels wide |
| GameDefs.IsInitial | Pinball/Source/ModuleGame.h:69-149 | the table after Start: in game, a fresh player, flags down, counters at 0, Latias at frame 1, the flipper motors as created, no ball |
| GameRules.Collide | Pinball/Source/ModuleGame.cpp:1383-1419 | the flags and score a tag sets, and the impulse for the ball |
| GameRules.Callback | Pinball/Source/ModuleGame.cpp:1383-1419 | a callback is a crash exactly when no ball has been spawned; otherwise it is Collide |
| GameRules.CollideScore | Pinball/Source/ModuleGame.cpp:1404-1405 | only Points changes the score, by exactly +100; no tag changes the best score or the lives |
| GameRules.CollideImpulseFlags | Pinball/Source/ModuleGame.cpp:1387-1390 | the spring, Pikachu and generic impulser tags arm the launcher, and only Pikachu and generic choose the basic launch; Points disarms both flags; other tags leave them |
| GameRules.CollideEventFlags | Pinball/Source/ModuleGame.cpp:1392-1416 | Dead raises `dead`; tag 10 raises `start`; the kickers raise their contact flags; no tag lowers any of these |
| GameRules.CollideForce | Pinball/Source/ModuleGame.cpp:1385-1402 | the kickers push with (0.4, -0.9) and (-0.4, -0.9), mirror images; every other tag pushes with zero force |
| GameRules.CollideLeavesTheRest | Pinball/Source/ModuleGame.cpp:1383-1419 | a collision writes only the score and the launcher, contact, dead and start flags |
| GameRules.CollideIdempotent | Pinball/Source/ModuleGame.cpp:1387-1416 | for every tag but Points, a second delivery of the same tag changes nothing |
| GameRules.PointsAccumulate | Pinball/Source/ModuleGame.cpp:1404-1405 | two Points deliveries score 200 |
| GameRules.FrameStep | Pinball/Source/ModuleGame.cpp:987-1360 | one frame: the state switch over INGAME, DEAD, SCORE and WIN |
| GameRules.ArmBlocker | Pinball/Source/ModuleGame.cpp:998-1002 | once the start gate is passed, the blocker is enabled one time |
| GameRules.Cycle | Pinball/Source/ModuleGame.cpp:1009-1016 | an animation index that advances on a tick and wraps from a limit back to a restart frame |
| GameRules.AnimateSprites | Pinball/Source/ModuleGame.cpp:1009-1101 | the Pikachu, Spoink, Chinchou, Makuhita and Chikorita animations of one frame |
| GameRules.ExtraLife | Pinball/Source/ModuleGame.cpp:1106-1121 | the extra-life block: a life at banner frame 0, the reward closed at 160 |
| GameRules.Prepared | Pinball/Source/ModuleGame.cpp:998-1121 | the first half of a frame in game, in source order: blocker, ball, sprites, extra life |
| GameRules.Impulse | Pinball/Source/ModuleGame.cpp:1124-1159 | the launcher: the basic shot on release of DOWN, or the Spoink charge and release |
| GameRules.ClampPlunger | Pinball/Source/ModuleGame.cpp:1162-1171 | the plunger command near the joint's limits |
| GameRules.Flippers | Pinball/Source/ModuleGame.cpp:1175-1194 | the flipper motor commands on key press and release |
| GameRules.Controls | Pinball/Source/ModuleGame.cpp:1124-1194 | the player's controls: launcher, plunger clamp, flippers |
| GameRules.LatiasStep | Pinball/Source/ModuleGame.cpp:1208-1217 | the Latias index bouncing between frames 2 and 13 |
| GameRules.DyingStep | Pinball/Source/ModuleGame.cpp:1202-1220 | one frame of the death animation: cnt climbs by 5, Latias flies between 150 and 1200 |
| GameRules.ChargeDeath | Pinball/Source/ModuleGame.cpp:1222-1232 | a life taken; dead, cnt and cntAnimation cleared; start, oneTime and the blocker cleared; contactLeft and contactRight left as they were |
| GameRules.ImpulserFlash | Pinball/Source/ModuleGame.cpp:1234-1255 | the kicker flash: cnt counts up to 12 frames while a contact flag is up |
| GameRules.Lives | Pinball/Source/ModuleGame.cpp:1197-1255 | the lives block: the death animation, then the death charged; or else the kicker flash |
| GameRules.Outcome | Pinball/Source/ModuleGame.cpp:1257-1269 | with no lives left, DEAD unless the score is non-zero and at least the best score (a tie wins), then WIN |
| GameRules.InGameFrame | Pinball/Source/ModuleGame.cpp:991-1291 | the in-game frame: the stages in order, plus the spawn, shot and reset commands for the ball |
| GameRules.GameOverFrame | Pinball/Source/ModuleGame.cpp:1293-1312 | the game-over screen: its blink counter, and SPACE going to SCORE with 3 lives |
| GameRules.WinFrame | Pinball/Source/ModuleGame.cpp:1328-1357 | the win screen: the same, with a faster blink |
| GameRules.ScoreFrame | Pinball/Source/ModuleGame.cpp:1314-1326 | the tally: the better score kept, the score cleared, back in game |
| GameRules.PreparedFrame | Pinball/Source/ModuleGame.cpp:998-1121 | the first half of a frame (blocker, spawn, sprites, extra life) leaves the state, launcher, round, motors, score and Latias alone; it adds a life exactly when the extra life is due |
| GameRules.ControlsFrame | Pinball/Source/ModuleGame.cpp:1124-1194 | the controls change only the launcher and the motors |
| GameRules.LivesFrame | Pinball/Source/ModuleGame.cpp:1197-1255 | the lives block leaves the state, launcher, reward, motors and both scores alone |
| GameRules.ScoreTally | Pinball/Source/ModuleGame.cpp:1314-1326 | SCORE sets best := max(best, score) and score := 0, keeps the lives, returns to INGAME, and does nothing to the ball |
| GameRules.FrameNeverScores | Pinball/Source/ModuleGame.cpp:987-1357 | every frame outside SCORE leaves the score and the best score as they were |
| GameRules.Transitions | Pinball/Source/ModuleGame.cpp:1257-1269 | INGAME stays until the lives run out, then goes to DEAD if score < best or score = 0, else WIN; DEAD and WIN wait for SPACE, which sets lives = 3 and cnt = 0 and goes to SCORE; SCORE goes to INGAME |
| GameRules.WinIsRecord | Pinball/Source/ModuleGame.cpp:1257-1326 | a win means a non-zero score at least the best score (a tie included), and the tally after SPACE makes it the best score |
| GameRules.LauncherInput | Pinball/Source/ModuleGame.cpp:1139-1158 | with the Spoink launcher armed: holding DOWN charges at -0.5; releasing it fires at 200 and disarms; otherwise nothing changes |
| GameRules.BasicLauncherInput | Pinball/Source/ModuleGame.cpp:1129-1138 | the basic launcher shoots exactly on release of DOWN and then disarms; the plunger is not touched |
| GameRules.PlungerClamp | Pinball/Source/ModuleGame.cpp:1162-1171 | near the upper limit the plunger returns at -0.2; otherwise near the lower limit it stops; otherwise the command stands; the upper test wins |
| GameRules.PlungerCommandEachFrame | Pinball/Source/ModuleGame.cpp:1124-1171 | after a frame in game the plunger command is the launcher's command, clamped |
| GameRules.FlipperCommands | Pinball/Source/ModuleGame.cpp:1175-1194 | RIGHT press drives the right flipper at -4 and its release at +4; LEFT is the mirror image; with no edge the motor keeps its speed |
| GameRules.ExtraLifeRule | Pinball/Source/ModuleGame.cpp:1106-1121 | +1 life exactly when score ≥ 100, the reward is open and the banner counter is 0; the reward closes exactly at banner frame 160 |
| GameRules.DeathCharged | Pinball/Source/ModuleGame.cpp:1222-1232 | charging a death takes exactly one life and clears dead, cnt, cntAnimation, start and oneTime, and disables the blocker |
| GameRules.LastLifeEndsAtOnce | Pinball/Source/ModuleGame.cpp:1197-1269 | with one life and no extra life due in that frame, the death is charged in the same frame, the ball is reset, and the game ends in DEAD or WIN (when the extra life is due, it is added first and the death animates) |
| GameRules.LoneFlashEnds | Pinball/Source/ModuleGame.cpp:1236-1254 | a lone kicker flash counts up to 12 frames, then clears its flag and the counter |
| GameRules.BothFlagsLatch | Pinball/Source/ModuleGame.cpp:1236-1254 | once both kicker flags are up and the counter has reached 12, neither branch clears anything, and the flash state stays as it is |
| GameRules.Replay | Pinball/Source/ModuleGame.cpp:987-1419 | a run of frames and collision callbacks, ending at a callback that crashes |
| GameRules.InitialSatisfiesInv | Pinball/Source/ModuleGame.h:69-149 | the table after Start satisfies the invariant |
| GameRules.LatiasStepInRange | Pinball/Source/ModuleGame.cpp:1208-1218 | the Latias bounce keeps its index in the loaded slots 1..13 |
| GameRules.AnimateSpritesInRange | Pinball/Source/ModuleGame.cpp:1009-1101 | the sprite animations keep every index inside its table; Spoink stays in 0..6 |
| GameRules.LivesKeepsRanges | Pinball/Source/ModuleGame.cpp:1197-1233 | the lives block keeps the sprites in range and never takes more than the last life |
| GameRules.FrameKeepsInv | Pinball/Source/ModuleGame.cpp:987-1357 | a frame preserves the invariant: indices in range, scores non-negative multiples of 100, and the lives each state is entered with |
| GameRules.CollideKeepsInv | Pinball/Source/ModuleGame.cpp:1383-1419 | a collision preserves the invariant |
| GameRules.ApplyKeepsInv | Pinball/Source/ModuleGame.cpp:987-1419 | a frame or a collision preserves the invariant |
| GameRules.ReplayKeepsInv | Pinball/Source/ModuleGame.cpp:987-1419 | any interleaving of frames and collisions preserves the invariant |
| GameRules.AnimationIndicesInBounds | Pinball/Source/ModuleGame.cpp:1009-1218 | from the initial table, every animation index the table ever uses lies inside its table (Spoink 0..6 of 8, Pikachu and idle frames 0..1, Latias 1..13 of 14) |
| GameRules.ApplyKeepsBest | Pinball/Source/ModuleGame.cpp:1314-1326 | no frame and no collision lowers the best score |
| GameRules.BestScoreNeverDecreases | Pinball/Source/ModuleGame.cpp:1314-1326 | along any run the best score never decreases |
| GameRules.FrameSpawnsBall | Pinball/Source/ModuleGame.cpp:1004-1006 | a frame in game always leaves a ball, and spawns one at (486, 500) exactly when there was none |
| GameRules.ApplyKeepsBall | Pinball/Source/ModuleGame.cpp:987-1419 | no frame and no callback removes the ball |
| GameRules.BallStaysSpawned | Pinball/Source/ModuleGame.cpp:1004-1006 | once a ball exists it stays, and no later callback crashes |
| GameRules.ContactBeforeFirstFrameCrashes | Pinball/Source/ModuleGame.cpp:1419 | a callback on the table after Start, before any frame, crashes, and the run ends there |
| GameRules.NoCrashAfterFirstFrame | Pinball/Source/ModuleGame.cpp:1004-1006 | after a frame in game, no run of events crashes |
| GameRules.FrameReward | Pinball/Source/ModuleGame.cpp:1106-1121 | during a frame in game only the extra-life block touches the reward |
| GameRules.ApplyReward | Pinball/Source/ModuleGame.cpp:1106-1121 | one event never reopens the reward, and a grant uses it up |
| GameRules.ExtraLifeAtMostOnce | Pinball/Source/ModuleGame.cpp:1106-1121 | along any run the extra life is granted at most once, and never once the reward is closed |
| GameRules.DyingFrame | Pinball/Source/ModuleGame.cpp:1197-1221 | a frame of the death animation with more than one life adds 5 to cnt; the player is unchanged except for the extra life, added when it falls due in that frame |
| GameRules.DyingFrames | Pinball/Source/ModuleGame.cpp:1197-1221 | k frames of the death animation add 5k to cnt; the lives grow only by the extra lives handed out meanwhile (`Grants`) |
| GameRules.DeathFrames | Pinball/Source/ModuleGame.cpp:1197-1218 | the number of animation frames of a death from cnt: the last frame starts below 1500 and the frames take cnt to 1500 or beyond |
| GameRules.DeathEpisode | Pinball/Source/ModuleGame.cpp:1197-1232 | with more than one life and any cnt below 1500, the death animates for ⌈(1500 − cnt)/5⌉ frames (300 from cnt 0); the next frame takes exactly one life, keeping any extra life granted meanwhile, and clears dead, cnt, start and oneTime |
| Game.ModuleGame.constructor | Pinball/Source/ModuleGame.h:69-149 | the table after its member initialisers and Start (ModuleGame.cpp:925-929, 979) is the initial table |
| Game.ModuleGame.OnCollision | Pinball/Source/ModuleGame.cpp:1383-1419 | the result is an error exactly when there is no ball; otherwise the fields and the force are exactly what Collide gives for the tag |
| Game.ModuleGame.Update | Pinball/Source/ModuleGame.cpp:987-1360 | the new fields and the ball commands are exactly what FrameStep gives for the table and the input |
| Game.ModuleGame.UpdateInGame | Pinball/Source/ModuleGame.cpp:991-1291 | the in-game branch is exactly InGameFrame |
| Game.ModuleGame.UpdateBlocker | Pinball/Source/ModuleGame.cpp:998-1002 | once the start gate is passed, the blocker is enabled one time |
| Game.ModuleGame.EnsureBall | Pinball/Source/ModuleGame.cpp:1004-1006 | the ball is spawned at (486, 500) exactly when there is none yet |
| Game.ModuleGame.AnimateFrames | Pinball/Source/ModuleGame.cpp:1008-1101 | the five sprite animations together are AnimateSprites |
| Game.ModuleGame.AnimatePikachu | Pinball/Source/ModuleGame.cpp:1009-1017 | Pikachu's index cycles over 0..1 on its tick |
| Game.ModuleGame.AnimateSpoink | Pinball/Source/ModuleGame.cpp:1020-1038 | Spoink cycles over 0..4 when idle and 5..6 while charged |
| Game.ModuleGame.AnimateChinchou | Pinball/Source/ModuleGame.cpp:1042-1049 | the Chinchou index cycles over 0..1 |
| Game.ModuleGame.AnimateMakuhita | Pinball/Source/ModuleGame.cpp:1083-1091 | the Makuhita index cycles over 0..1 |
| Game.ModuleGame.AnimateChikorita | Pinball/Source/ModuleGame.cpp:1093-1101 | the Chikorita index cycles over 0..1 |
| Game.ModuleGame.RewardExtraLife | Pinball/Source/ModuleGame.cpp:1106-1121 | the extra-life block is exactly ExtraLife |
| Game.ModuleGame.HandleLauncher | Pinball/Source/ModuleGame.cpp:1124-1159 | the launcher becomes Impulse of the old launcher, and the basic shot is fired exactly when FiresBasicShot holds |
| Game.ModuleGame.MovePlunger | Pinball/Source/ModuleGame.cpp:1162-1171 | the plunger command becomes its clamp; nothing else changes |
| Game.ModuleGame.MoveFlippers | Pinball/Source/ModuleGame.cpp:1175-1194 | the motors become Flippers of the old motors and the keys |
| Game.ModuleGame.ManageLives | Pinball/Source/ModuleGame.cpp:1197-1255 | the lives block is exactly Lives, and the ball is reset exactly when a death is charged |
| Game.ModuleGame.AnimateDeath | Pinball/Source/ModuleGame.cpp:1198-1221 | one frame of the death animation is exactly DyingStep |
| Game.ModuleGame.AnimateLatias | Pinball/Source/ModuleGame.cpp:1208-1217 | the Latias index bounces between 2 and 13 on its tick |
| Game.ModuleGame.ResetRound | Pinball/Source/ModuleGame.cpp:1222-1232 | charging a death is exactly ChargeDeath |
| Game.ModuleGame.FlashImpulsers | Pinball/Source/ModuleGame.cpp:1234-1255 | the two kicker flash branches are exactly ImpulserFlash |
| Game.ModuleGame.CheckGameOver | Pinball/Source/ModuleGame.cpp:1257-1269 | the outcome with no lives left is exactly Outcome |
| Game.ModuleGame.UpdateGameOver | Pinball/Source/ModuleGame.cpp:1293-1312 | the game-over screen is exactly GameOverFrame |
| Game.ModuleGame.UpdateScore | Pinball/Source/ModuleGame.cpp:1314-1326 | the tally is exactly ScoreFrame |
| Game.ModuleGame.UpdateWin | Pinball/Source/ModuleGame.cpp:1328-1357 | the win screen is exactly WinFrame |

## Left out

- Rendering, audio, fonts and asset loading and unloading (every `Draw*`, `PlaySound`, `LoadTexture`, music stream and `CleanUp`): presentation only, with no effect on the table's state.
- Box2D dynamics (`world->Step`, the solver enforcing joint limits and motors, `ApplyLinearImpulseToCenter`, `SetTransform`, `SetEnabled`, `RayCast`, `Contains`, `GetPhysicPosition`, `GetRotation`): foreign floating-point geometry. Bodies and joints are kept as the definitions handed to Box2D. The ball's impulse and reset are returned as commands. The blocker's enabled state is a flag.
- Floating point: floats are exact reals. IEEE rounding of the conversions and of the plunger comparisons is not modelled.
- Animation timers (`GetFrameTime` accumulated into `timer_*`): each timer becomes a boolean "elapsed" input per frame, because the frame time is I/O.
- The plunger joint's translation (`GetJointTranslation`): an input of the frame, because the solver produces it. Its limits (`GetUpperLimit`, `GetLowerLimit`) are `CreateSpring`'s ±1.5 (ModulePhysics.cpp:276-277), which nothing changes; the frame takes them as inputs too, so the clamp is stated for any limits.
- Integer width: scores and counters are unbounded integers. `actualScore` is a 32-bit `int` (ModuleGame.h:132), and `actualScore += 100` overflows after 21,474,837 Points contacts; that overflow is not modelled, so `Inv`'s score clause (non-negative, a multiple of 100) holds for the model's unbounded score.
- The Chinchou bumper branch of `OnCollision` (ModuleGame.cpp:1421-1439) and the bumpers' hit timers at 1052-1080. The outer test on tag `ChinchouBumper` does match: it plays a sound and sets `bumper_hit`, which nothing reads. The inner tests compare a `PhysBody*` with entity pointers cast to `PhysBody*`, so they never match and no bumper's `hit` is set by it. ModuleGame.h declares neither `bumper_hit` nor the bumpers.
- A new `Pikachu` allocated on each flipper press (ModuleGame.cpp:1178, 1189), and twice in `Start` (883, 923). Each RIGHT press adds another Pikachu at (415, 775), and each LEFT press adds one at (66, 775), where `Start` placed none. The new body is a sensor tagged PikachuImpulser, so when the ball touches it, `canImpulse` and `basicImpulser` are set. The model does not track which bodies exist. It covers these contacts only because a `Hit` event may carry any tag at any time.
- `delete p` on an array made by `new[]` (ModulePhysics.cpp:232), and `CleanUp` not destroying the world: memory defects outside the model's value semantics.
- The `TraceLog` loop over the chain coordinates (ModulePhysics.cpp:215-218): logging only.
- `CreateScenarioGround` and the ground body in `ModulePhysics::Start` (ModulePhysics.cpp:31-32, 89-114): scenery bodies without user data. They matter only because `BeginContact` would dereference their null user data, which `Physics.BeginContact` models as an error result.
- The debug draw and the mouse-joint drag in `PostUpdate` (ModulePhysics.cpp:289-410): input and UI tooling.
- The per-entity `Update` calls, which only draw, and the score text.
- The stale template copies under CleanTemplate/fisica2-CleanTemplate: they are not the table.
- Physics.CreateChain: Box2D's `CreateLoop` asserts at least three vertices. That assertion belongs to Box2D and is not modelled; the chain is built for any `size`.
- Identity and lifetime of objects: `PhysBody` is a value here, so pointer aliasing between entities and bodies is not captured.
- Uninitialised members: `backwards`, `start`, `oneTime`, `changeAnimation`, `contactLeft`, `contactRight`, `basicImpulser`, `textCounter`, the Chinchou/Makuhita/Chikorita frame indices and the `ball` pointer have no initialiser in the header. The model starts them false or 0. The `ball` pointer starts as no ball, so a callback before the first frame is a crash. `CreateCircle` never sets `id`: it is `None`, and the dispatcher reads it as 0 (`UnsetId`).
- ModuleGame.h does not declare `ChinchouBumper`. It is the distinct tag 11 here.
- What the main program calls and when: `ModuleGame::Start` is modelled only by the state it leaves, the order of modules by `Event` sequences (a frame, or a collision callback), and collisions inside a world step by `Hit` events.
