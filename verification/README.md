# Confusing platformer: game core in Dafny

This project models the game core of `ConfusingGameView`, an Android view for a
vertical platformer. The player drops down a procedurally generated chain of
platforms toward a goal platform. Some platforms are traps:

- **fake** platforms crumble once landed on;
- **deadly** platforms and side traps kill on contact;
- **hidden** platforms are invisible until the player comes near.

A fog line creeps down the level by a fixed step every tick, whatever the
player does, and kills anyone whose top falls below it.
Reaching the goal builds the next, harder level. Dying respawns the player at
the top and counts one more attempt.

The state of the view is one immutable record, `State.GameState`. The modelled
operations are pure functions over it:

- `LevelGen.GenerateLevel` is `generateLevel`;
- `Physics.UpdatePhysics` is `updatePhysics`;
- `State.Respawn` is `respawn`;
- `Game.UpdateCamera` is `updateCamera`;
- `Physics.Jump` is the jump guard of the touch handler.

`Game.Step` and `Game.Run` play a sequence of host events: frames, each running
physics then camera as `onDraw` does, and presses. `Game.Init` is the
constructor.

Modelling choices:

- **Coordinates.** They are `real`. Screen y grows downward, so "below" means a
  larger y.
- **Random numbers.** The view's single `Random` instance is seeded once and
  never reseeded. It is therefore modelled as one infinite stream of draws,
  `Rng.Stream = nat -> Unit`. `GameState.drawn` counts the calls made so far.
  Each `nextInt`/`nextFloat` call consumes exactly one element. `nextInt(lo, hi)`
  is read off a unit draw `u` as `lo + floor((hi - lo) * u)`.
- **Platform kinds.** A `Platform` keeps the program's four independent flags
  (`fake`, `deadly`, `hiddenUntilTouch`, `isGoal`) and is not a single kind
  enumeration. The generator can produce a platform that is both fake and
  hidden, and the model keeps that.
- **Viewport size.** The width and height are parameters, because the view
  reads them from its layout.

Behaviours the proofs make explicit that a reader might not expect:

- **Strict reveal test.** A hidden platform is revealed only when the player's
  vertical centre is strictly greater than `top - 16`. A player whose centre is
  exactly 16 above the top does not reveal it (`Physics.HiddenRevealIsStrict`).
- **Fake-and-hidden platforms.** `revealed` serves both as "made visible" and
  as "crumbled". So a platform that is both fake and hidden is revealed and
  skipped in the same round once the player's centre passes `top - 16`
  (`Physics.FakeHiddenVanishesOnApproach`).
- **Horizontal clamp.** The clamp always leaves the right edge inside the view.
  The left edge stays at or right of 0 only when the view is at least as wide
  as the player box (`Physics.ClampX`).
- **Fog direction.** The fog line's y grows every tick, so the line moves down
  the screen. A player whose top is below it dies.
- **Side traps.** Side traps follow chain platforms 0, 5, 10, …, so the first
  chain platform already gets one. That makes `ceil((22 + 2·level) / 5)` side
  traps from level 3 on.
- **First level is generated at width 0.** The constructor generates level 1
  before the view has a width. Every chain platform's left edge is therefore
  clamped to exactly 40, and the goal is centred on x = 0 (`Game.InitialState`).
- **`levelSeed` is only a counter.** It grows by 13 per level but never reseeds
  the generator. A level's layout depends on every draw made since the view
  was created, not on `levelSeed`.

## Model

| member | source | states |
|---|---|---|
| `Physics.HorizontalVelocity` | app/src/main/java/com/example/confusingmazegame/ConfusingGameView.kt:90-95 | The speed is `-(8+0.28·level)` exactly when left alone is held, `+(8+0.28·level)` exactly when right alone is held, and 0 exactly when both or neither are held |
| `Physics.ClampX` | app/src/main/java/com/example/confusingmazegame/ConfusingGameView.kt:100-101 | After the clamp the left edge is `min(max(left, 0), width - boxWidth)`: a box past the left edge is moved to 0, then one past the right edge is moved to end at the view width. So the right edge is at most the width, the left edge is at least 0 whenever the box fits, a box already inside is left alone, and the height, vertical position and width are kept |
| `Physics.Jump` | app/src/main/java/com/example/confusingmazegame/ConfusingGameView.kt:156-158 | A press in the upper half sets the vertical speed to `-16 - min(level, 8)` only when its magnitude is below 0.5; otherwise nothing changes, and nothing but the vertical speed ever changes |
| `Physics.NoDoubleJump` | app/src/main/java/com/example/confusingmazegame/ConfusingGameView.kt:156-157 | Right after a jump took effect, a second press changes nothing |
| `Physics.Reveal` | app/src/main/java/com/example/confusingmazegame/ConfusingGameView.kt:105-107 | A platform ends revealed iff it already was, or it is hidden and the player's centre is strictly below `top - 16`; its box and kind flags are kept |
| `Physics.Visit` | app/src/main/java/com/example/confusingmazegame/ConfusingGameView.kt:105-128 | One round of the platform loop. It passes exactly when the platform is a crumbled fake (revealed before, or by this round's reveal test) or is not hit. It kills exactly on a hit on a deadly platform that is not crumbled. It reaches the goal exactly on such a hit on a non-deadly goal. It lands on every other such hit, putting the player's bottom on the platform's top and marking a fake platform revealed. Apart from that mark, the platform comes out as the reveal test leaves it |
| `Physics.FakeCrumbles` | app/src/main/java/com/example/confusingmazegame/ConfusingGameView.kt:108-122 | After landing on a fake platform, every later visit to it passes it, whatever the player's box and speed |
| `Physics.HiddenRevealIsStrict` | app/src/main/java/com/example/confusingmazegame/ConfusingGameView.kt:105-106 | A hidden platform with the player's centre exactly 16 above its top stays unrevealed |
| `Physics.FakeHiddenVanishesOnApproach` | app/src/main/java/com/example/confusingmazegame/ConfusingGameView.kt:105-108 | A fake and hidden platform is revealed and skipped in the same round once the player's centre passes `top - 16` |
| `Physics.Sweep` | app/src/main/java/com/example/confusingmazegame/ConfusingGameView.kt:103-130 | The in-order loop. The visits in list order decide the outcome: the first one that is a deadly hit makes it die there, with every later platform untouched; the first one that is a goal hit makes it advance; if there is none, it finishes with the player box and speed the landings carried to the end, grounded exactly when some visit landed. Each visited platform is what its visit left. The loop only reveals fake or hidden platforms, and a finished loop keeps the player's x and size |
| `Physics.CrumbledFakeIsSkipped` | app/src/main/java/com/example/confusingmazegame/ConfusingGameView.kt:108 | A fake platform already revealed is passed over unchanged by its visit, whatever the player box and speed the loop carries to it, so the loop never lands on it |
| `Physics.AfterSweep` | app/src/main/java/com/example/confusingmazegame/ConfusingGameView.kt:132-140 | After a loop that ran to the end: the tick respawns exactly when the box the loop left is dead after one fog step, and then every fake or hidden platform is hidden again. Otherwise it keeps that box and the revealed platforms, and the speed is the loop's less 14 exactly when the player is airborne, more than 40 above the fog and the draw falls under `0.015·min(level, 12)`. Either way one number is drawn exactly when the player is airborne and more than 40 above the fog |
| `Physics.UpdatePhysics` | app/src/main/java/com/example/confusingmazegame/ConfusingGameView.kt:89-141 | Per tick, attempts grow by at most one and only with the player, velocity, camera and fog reset. The level grows by at most one and only with seed +13, unchanged attempts and a freshly shaped level. Within a level the layout is kept and at most one draw is made. The loop over the moved and fallen player decides the end: a deadly contact respawns with no draw; a goal hit advances; a finished loop respawns exactly when the box it left is dead after the fog step. Every respawn hides the fake and hidden platforms of the list the loop left again. Otherwise the tick keeps that box, applies the impulse to the loop's speed, moves the fog by exactly `0.55+0.06·level` and applies the chosen horizontal speed |
| `Physics.DeadlyContactAborts` | app/src/main/java/com/example/confusingmazegame/ConfusingGameView.kt:104-116 | When the visits before platform `k` let the loop go on and platform `k` is a deadly hit, the tick respawns with no level change, even if a goal follows, and without the confusion draw |
| `Physics.FirstDeadlyWins` | app/src/main/java/com/example/confusingmazegame/ConfusingGameView.kt:104-116 | When the first platform in the list is a deadly hit, the tick respawns whatever platforms follow, including goals |
| `Physics.GoalAdvances` | app/src/main/java/com/example/confusingmazegame/ConfusingGameView.kt:104-127 | When the visits before platform `k` let the loop go on and platform `k` is a goal hit, the tick gives level+1 and seed+13, keeps the attempts, and yields a list of the new level's size whose only goal is last |
| `Physics.UntouchedPassFinishes` | app/src/main/java/com/example/confusingmazegame/ConfusingGameView.kt:103-130 | A loop in which the player touches no platform finishes with the player and speed unchanged, not grounded, and every platform as the reveal test leaves it |
| `Physics.UntouchedTick` | app/src/main/java/com/example/confusingmazegame/ConfusingGameView.kt:96-141 | On a tick whose moved player touches no platform, the player box is the one gravity, the horizontal move and the clamp produced. The tick respawns exactly when that box is dead after the fog step; otherwise the velocity is the chosen horizontal speed and the speed after gravity, less 14 when the confusion impulse fires |
| `State.HideTraps` | app/src/main/java/com/example/confusingmazegame/ConfusingGameView.kt:235-239 | Same length and layout; fake or hidden platforms become unrevealed, all others are unchanged |
| `State.HideTrapsIdempotent` | app/src/main/java/com/example/confusingmazegame/ConfusingGameView.kt:235-239 | Hiding the traps twice equals hiding them once |
| `State.Respawn` | app/src/main/java/com/example/confusingmazegame/ConfusingGameView.kt:228-240 | Attempts +1; player (80,80,130,130), velocity (0,0), camera 0, fog 900; level, seed and draws kept. The list keeps its length and layout, and a platform stays revealed iff it was revealed and is neither fake nor hidden |
| `State.RespawnTwice` | app/src/main/java/com/example/confusingmazegame/ConfusingGameView.kt:228-240 | Two respawns differ from one only by the attempt counter |
| `Rng.NextInt` | app/src/main/java/com/example/confusingmazegame/ConfusingGameView.kt:181-189 | A draw read as `nextInt(lo, hi)` lies in `[lo, hi)` |
| `LevelGen.Clamp` | app/src/main/java/com/example/confusingmazegame/ConfusingGameView.kt:182 | `coerceIn` returns the lower bound for a value below it, the upper bound for a value above it, and the value itself when it is inside |
| `LevelGen.DrawTraps` | app/src/main/java/com/example/confusingmazegame/ConfusingGameView.kt:185-187 | Trap flags in priority order: deadly only when not fake, hidden only when not deadly, and a draw only for a flag whose guard holds (2 draws after fake or deadly, else 3) |
| `LevelGen.ChainStep` | app/src/main/java/com/example/confusingmazegame/ConfusingGameView.kt:181-209 | One chain round adds a chain-shaped platform at the carried x whose fake, deadly and hidden flags are the ones the round's trap draws decide. Right after it comes a side trap exactly when the index is a multiple of 5 and the level exceeds 2. The side trap sits 18 right of the platform's right edge and 20 above its top, 82 wide and 34 high. The round goes 125 to 264 further down and takes 5 or 6 draws |
| `LevelGen.BuildChain` | app/src/main/java/com/example/confusingmazegame/ConfusingGameView.kt:180-210 | The loop's rounds from `index` to `count`: chain platform `j` sits at its slot, after the earlier chain platforms and the side traps of the earlier multiples of 5 (from level 3 on), and is chain-shaped; each multiple of 5 is followed by its side trap, placed beside it. Nothing else is added. All have fresh flags, none lies below the final y, which some chain platform reaches, and each round uses 5 to 6 draws |
| `LevelGen.ChainSlotStep` | app/src/main/java/com/example/confusingmazegame/ConfusingGameView.kt:200-209 | Each chain round takes one position in the list, and two when it adds a side trap |
| `LevelGen.MaxTop` | app/src/main/java/com/example/confusingmazegame/ConfusingGameView.kt:212 | `maxOf` of the tops is an upper bound of every top and is attained |
| `LevelGen.LevelLayout` | app/src/main/java/com/example/confusingmazegame/ConfusingGameView.kt:171-219 | The generated list has `2 + (22+2L) + (L>2 ? ceil((22+2L)/5) : 0)` platforms and starts with (40,180,360,220). Chain platform `j` is at position `1 + j + (L>2 ? ceil(j/5) : 0)`, with a side trap right after it exactly for `j` = 0, 5, 10, … from level 3 on. Its only goal is last, centred, 240 wide, and 180 below the lowest platform, which is a chain platform. Chain platforms keep x in `[40, max(40, width-260)]` and width ≥ 110; side traps are deadly and neither fake nor hidden; nothing is revealed |
| `LevelGen.GenerateLevel` | app/src/main/java/com/example/confusingmazegame/ConfusingGameView.kt:169-226 | The new list has the shape above, with chain platforms and side traps at their positions; player, velocity, camera and fog are reset; level, attempts and seed are kept. One discarded draw plus 5 to 6 per chain round are used |
| `LevelGen.FirstLevelCount` | app/src/main/java/com/example/confusingmazegame/ConfusingGameView.kt:178-219 | Level 1 has 26 platforms |
| `Game.UpdateCamera` | app/src/main/java/com/example/confusingmazegame/ConfusingGameView.kt:143-147 | The camera never goes above 0. It ends no further than the farther of its old value and the target, and, unless floored, no nearer than the nearer one. Nothing else changes |
| `Game.Step` | app/src/main/java/com/example/confusingmazegame/ConfusingGameView.kt:47-52 | A frame or a press never lowers attempts or level |
| `Game.Init` | app/src/main/java/com/example/confusingmazegame/ConfusingGameView.kt:26-45 | The constructor's field initialisers followed by `generateLevel` at width 0: level 1, no attempts, seed 41, the spawn position, and a level of the generated shape for width 0 |
| `Game.GeneratedIsValid` | app/src/main/java/com/example/confusingmazegame/ConfusingGameView.kt:169-226 | A generated level satisfies the session invariant |
| `Game.InitialState` | app/src/main/java/com/example/confusingmazegame/ConfusingGameView.kt:26-45 | The constructed view is valid, at level 1 with 0 attempts, seed 41 and 26 platforms. Because it is built at width 0, every chain platform starts at x = 40 and the goal at x = -120 |
| `Game.FirstLevelColumn` | app/src/main/java/com/example/confusingmazegame/ConfusingGameView.kt:176-219 | A level-1 list generated at width 0 has 26 platforms, every chain platform at x = 40 (the `coerceIn` range collapses to 40 and level 1 has no side traps), and the goal at x = -120 |
| `Game.PhysicsPreservesValid` | app/src/main/java/com/example/confusingmazegame/ConfusingGameView.kt:89-141 | A tick keeps the invariant: a 50×50 player, camera ≥ 0, one goal and it last, deadly never fake, hidden never deadly, the goal flag alone, and only fake or hidden platforms revealed |
| `Game.StepPreservesValid` | app/src/main/java/com/example/confusingmazegame/ConfusingGameView.kt:47-52 | Any frame or press keeps the invariant |
| `Game.RunPreservesValid` | app/src/main/java/com/example/confusingmazegame/ConfusingGameView.kt:43-52 | Every state reached from a valid one by any sequence of events is valid |
| `Game.RunIsMonotone` | app/src/main/java/com/example/confusingmazegame/ConfusingGameView.kt:123-126 | Over any run, attempts (incremented only by respawn, line 229) and level (incremented only on a goal landing) never decrease |

## Left out

- Drawing: `onDraw`'s canvas calls, paints, culling, HUD text and the self-scheduling redraw (lines 47-87 apart from the two update calls) are presentation only.
- Touch decoding: turning a `MotionEvent` into `leftPressed`/`rightPressed` (lines 150-155, 161-164) is input plumbing. A frame takes the two intents directly, and a press carries only its y for the jump guard.
- The internals of Kotlin's `Random`: which words `nextInt`/`nextFloat` consume and how `nextInt(lo, hi)` maps them are not modelled. Each call is one element of an abstract stream.
- There is no claim that the same seed gives the same level. The generator is never reseeded from `levelSeed`.
- Float32 rounding: positions, speeds and probabilities are exact reals.
- 32-bit overflow of `attempts`, `level` and `levelSeed`: they are unbounded integers.
- `Game.UpdateCamera`: states the floor at 0 and that the camera stays between its old value and the target, not the exact 9% smoothing step, because the convergence is a numeric matter.
- `LevelGen.GenerateLevel`: states ranges, shapes, counts and positions in the list of the generated platforms, and where each side trap sits relative to its chain platform. It does not state the chain platforms' exact coordinates or their trap flags as functions of the draws; the flags are tied to the draws only round by round, in `LevelGen.ChainStep`.
- `Physics.UpdatePhysics`: after a respawn or a level advance the contract states the reset player, velocity, camera, fog and platform flags, not the velocity or player box the tick computed before being cut short, which the reset overwrites.
