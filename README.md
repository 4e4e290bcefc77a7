# Infinite jump-and-run platformer: the frame simulation in Dafny

`game.js` runs an endless side-scrolling platformer on a canvas. Each
animation frame does the following:

- It moves the player from the held keys: walking, a double jump, and a
  rightward dash that sets the small flag. The flag only slows walking to 2
  and halves the drawn height; collisions keep the 40×40 box.
- It integrates gravity and lands the player on platforms with a
  one-directional swept test.
- The small flag is cleared only when the player stands with headroom.
  Falling below the canvas costs a life.
- The camera follows the player.
- Enemies walk left. A falling player stomps them; any other contact is a
  hit.
- A new segment of three random platforms is generated when the last
  platform comes into view.
- Everything far behind the camera is discarded.

This project models that frame simulation, and proves what it guarantees.

The model has two layers.

- **Specification functions** describe one frame as values:
  - `Geometry`: rectangles, `rectsIntersect` and the head-clearance probe;
  - `Entities`: the player and enemy records, the constants and `resetPlayer`;
  - `PlayerPhysics`: `updatePlayer` as a chain of phase functions, ending in
    `PlayerStep`;
  - `EnemyPhysics`: `updateEnemies` as a recursion `PassFrom` over the
    indices, from the last down;
  - `Level`: `generateSegment` as a fold `BuildUpTo` over the random draws,
    and `cleanupWorld` as the order-preserving filter `Retain`;
  - `Game`: one frame `Tick`, and the frame invariant `Good`.
- **The `Platformer` module** holds the script's global state as objects.
  `Input` is the key map. `World` holds the player record, `cameraX`, and the
  platform and enemy lists. Its methods change that state in place,
  assignment by assignment and loop by loop, as the script does. Each method
  is proved to leave exactly the state the specification function
  describes. `GameLoop` is proved to keep the frame invariant.

Randomness comes in as `Draw` records, one per generator iteration, with
every value in [0, 1). The canvas size is fixed when the `World` is
constructed.

## Model

| member | source | states |
|---|---|---|
| Geometry.Intersects | game.js:57-64 | `rectsIntersect`: the four strict comparisons of the two boxes' edges. Its properties are the three lemmas below. |
| Geometry.IntersectsSymmetric | game.js:57-64 | The overlap test does not depend on argument order. |
| Geometry.SeparatedDoNotIntersect | game.js:57-64 | Rectangles that only touch along an edge (`a.x + a.w == b.x`), or lie wholly on one side of each other, do not intersect, because every comparison is strict. |
| Geometry.IntersectsIffSharedPoint | game.js:57-64 | For rectangles of positive size, the test holds iff the two rectangles share an interior point. |
| Geometry.InLowSpace | game.js:155-162 | The head probe hits iff some platform in the list overlaps the 5-high strip directly above the player's box. |
| Geometry.StandingSurfaceIsNoCeiling | game.js:155-162 | The surface the player stands on is never inside the head probe. |
| Entities.InitialPlayer | game.js:31-46 | The player at the start: at (100, 300), 40×40, at rest, isSmall clear, not on the ground, both jumps, no dash, score 0 and 3 lives. |
| Entities.Reset | game.js:164-170 | `resetPlayer`: x becomes the camera's x plus 100, y becomes 300, both velocities become 0 and jumpsLeft becomes 2. Every other field is kept. |
| PlayerPhysics.Move | game.js:98-125 | The movement phases before landing: steer, jump, then dash and integrate, in source order. The key map returned is the one the jump left. |
| PlayerPhysics.Steer | game.js:98-102 | Sets vx from 'a' and 'd', with 'd' checked last so it wins. The speed is 2 while isSmall is set and 4 otherwise, and vx is 0 with neither key. VelocityAfterStep states the result after a whole step. |
| PlayerPhysics.Jump | game.js:104-111 | With w or space held and a jump left: vy becomes -12 when both jumps remain and -10 otherwise, one jump is spent, and both jump keys are released. Otherwise nothing changes. JumpImpulse and JumpWithoutBudgetIgnored state this after a whole step. |
| PlayerPhysics.Dash | game.js:113-121 | Shift with no running dash sets the timer to 12 and sets isSmall. Then a running timer forces vx to 10 and counts down once. DashTimerStep, DashRunsOut and DashLastsTwelveFrames state its timing. |
| PlayerPhysics.Integrate | game.js:123-125 | Gravity 0.6 is added to vy first, and the new vy is used to move y. x moves by vx. |
| PlayerPhysics.Lands | game.js:130-135 | The landing test: horizontal overlap, the player's bottom at most 10 below the platform's top, and the bottom plus vy at or below the top. |
| PlayerPhysics.Snap | game.js:136-139 | A landing puts the player's bottom on the platform's top, sets vy to 0, sets onGround, and restores both jumps. |
| PlayerPhysics.LandOn | game.js:130-140 | One pass of the platform loop's body: snap onto the platform when it passes the landing test, otherwise leave the player unchanged. |
| PlayerPhysics.Sweep | game.js:129-141 | The platform loop, in list order. Each platform is tested against the player as the earlier platforms left it. |
| PlayerPhysics.Land | game.js:127-141 | The landing phase: onGround is cleared, then the platform loop runs. LandResult states its outcome. |
| PlayerPhysics.Landed | game.js:98-141 | The player after the movement phases and the landing phase, before the size recovery. |
| PlayerPhysics.Recover | game.js:143-145 | A player on the ground with no platform in its head probe has isSmall cleared. Otherwise it is unchanged. SizeAfterStep states the result after a step. |
| PlayerPhysics.FallCheck | game.js:147-150 | A player whose y is below the canvas height loses a life and is reset at the given camera. Otherwise it is unchanged. FallAndAdvance states the result after a step. |
| PlayerPhysics.PlayerStep | game.js:97-153 | `updatePlayer`: steer, jump, dash, integrate, land, recover and fall check, in that order. The camera is then set 150 behind the player. LandingOutcome, FallAndAdvance and StepKeepsPlayerValid state its results. |
| PlayerPhysics.SnapTwice | game.js:136-139 | Landing on a second platform overrides the first: only the last snap counts. |
| PlayerPhysics.SweepNoMatch | game.js:127-141 | If no platform passes the landing test against the arriving player, the landing loop leaves it unchanged. |
| PlayerPhysics.LastWins | game.js:129-141 | When the last platform passes the test against the player as the earlier platforms left it, that platform wins. This holds if the player arrived there unchanged or standing on another platform. |
| PlayerPhysics.EarlierWins | game.js:129-141 | A platform that wins a prefix of the list still wins when the next platform fails the test. |
| PlayerPhysics.SweepWinner | game.js:127-141 | If some platform passes the test against the arriving player, there is a winner k. Platform k passed the test against the player as platforms 0..k-1 left it. The loop ends with the player snapped onto k. No platform after k passes against the player standing on k. |
| PlayerPhysics.ChainedLanding | game.js:129-141 | Each platform is tested against the player as the earlier ones left it. A platform the arriving player misses can win, and a later platform the arriving player would land on can lose. |
| PlayerPhysics.SweepCases | game.js:127-141 | The landing loop either changes nothing or snaps the player onto one of the platforms. |
| PlayerPhysics.LandResult | game.js:127-141 | After the landing phase the player is on the ground iff some platform passes the test against it as it arrives. There is then a winner w, as in SweepWinner. Platform w passed the test against the player as the platforms before it left it, the result is the player snapped onto w, and no later platform passes against it. With no match, only the ground flag is cleared. |
| PlayerPhysics.LandingOutcome | game.js:97-153 | After a whole step, onGround holds iff some platform passes the test against the player as it arrives. Unless the player then fell, it is at rest with both jumps and its bottom on a winning platform w. Platform w passed the test against the player as the platforms before it left it, and no later platform passes against the player standing on w. With no match, y and vy are those of the integrated motion. |
| PlayerPhysics.JumpsLeftAfterStep | game.js:104-111 | jumpsLeft after a step is 2 after a landing or a respawn. Otherwise it is one less if the jump fired, and unchanged if not. |
| PlayerPhysics.JumpImpulse | game.js:104-111 | A jump fires only when w or space is held and jumps remain. It sets vy to -12 (first jump) or -10 (second), before gravity, and releases both jump keys. Without a jump, vy only gains gravity and the keys are untouched. |
| PlayerPhysics.JumpWithoutBudgetIgnored | game.js:104-111 | With no jump left, holding a jump key changes nothing, and the keys stay held. |
| PlayerPhysics.DashTimerStep | game.js:113-121 | A running dash counts down by one. Shift on a frame with no running dash starts one that already shows 11. Otherwise the timer stays 0. |
| PlayerPhysics.VelocityAfterStep | game.js:98-121 | Unless the player fell: vx is +10 while a dash runs (its first frame included). Otherwise 'd' beats 'a', at speed 2 while isSmall is set and 4 when not, and vx is 0 with neither key. |
| PlayerPhysics.SizeAfterStep | game.js:113-162 | After a step isSmall is set iff it was set or a dash started, and it does not both stand and have headroom. |
| PlayerPhysics.FallAndAdvance | game.js:123-170 | Below the canvas the player loses one life and respawns at rest 100 right of the previous camera, at y 300, with both jumps. Otherwise lives stay and x advances by vx, at most 10. The score never changes, and the camera ends 150 behind the player. |
| PlayerPhysics.StepKeepsPlayerValid | game.js:97-153 | The step keeps the size at 40×40, jumpsLeft in [0, 2] and dashTimer in [0, 12]. |
| PlayerPhysics.DashRunsOut | game.js:118-121 | With shift released, the dash timer reaches 0 after as many frames as it shows, and stays there. |
| PlayerPhysics.DashLastsTwelveFrames | game.js:113-121 | A dash lasts twelve frames: the timer is 0 eleven frames after the start frame, and still running after ten. |
| PlayerPhysics.WalkOnGround | game.js:97-153 | Holding only 'd' on the ground platform, the player moves 4 per frame and keeps landing on the ground. It keeps isSmall clear, with both jumps and its lives. |
| PlayerPhysics.FiftyFramesRight | game.js:31-51 | From x = 100 on the initial ground, fifty frames of 'd' end at x = 300, still standing. |
| EnemyPhysics.Advance | game.js:176 | An enemy moves left by its own speed. |
| EnemyPhysics.Handle | game.js:178-188 | One loop iteration on an already moved enemy. It is kept when it misses the player. On contact with a falling player it is removed, vy becomes -6 and the score rises by 100. On any other contact it is removed, a life is lost and the player is reset. |
| EnemyPhysics.PassFrom | game.js:174-189 | The loop after it has handled indices from the last one down to i. Each enemy is moved, then handled against the player as the later enemies left it. PassAccounting, PassPlayer, PassWithoutHits and PassAfterHit state its results. |
| EnemyPhysics.Pass | game.js:173-190 | `updateEnemies`: the whole loop, down to index 0. |
| EnemyPhysics.AdvancedCons | game.js:175-176 | Moving a list of enemies moves its head and then its tail. |
| EnemyPhysics.PassAccounting | game.js:173-190 | The score rises by 100 per stomp and the lives fall by one per hit. Every enemy either survives, is stomped, or hits. |
| EnemyPhysics.PassSurvivorsInOrder | game.js:173-190 | The survivors are enemies moved left by their speed, in their original relative order. |
| EnemyPhysics.MissesMembers | game.js:178 | The order-preserving filter Misses keeps exactly the enemies whose box misses the given box. |
| EnemyPhysics.PassWithoutHits | game.js:173-190 | In a pass without hits, the player's box never moves, because a stomp changes only vy and the score. So the survivors are exactly the moved enemies that miss the player's original box, in their order. |
| EnemyPhysics.HandleAtRespawn | game.js:178-188 | A player resting at the respawn point stays there when it handles an enemy, and the enemy is kept iff it misses the respawn box. |
| EnemyPhysics.PassAfterHit | game.js:173-190 | Once a hit has happened at index j or later, the player rests at the respawn point. Every enemy from i up to j is then tested against the respawn box, and the survivors are those that miss it, in order, followed by the survivors from j on. |
| EnemyPhysics.PassNoContact | game.js:173-190 | When no moved enemy touches the player, the pass only moves every enemy left by its speed. |
| EnemyPhysics.PassPlayer | game.js:173-190 | The pass never touches size, dash or ground state, and stomps at most once. Without contact the player is unchanged. A lone stomp only sets vy to -6 and adds 100. After any hit the player is at the respawn point at rest with both jumps. |
| EnemyPhysics.SingleEnemy | game.js:173-190 | One enemy is moved and kept when it misses. It is removed with a bounce and 100 points when the player falls onto it, and otherwise with one life lost and a respawn. |
| EnemyPhysics.StompThenHit | game.js:173-190 | When a falling player touches two enemies, the later one in the list is stomped. The bounce leaves the player rising, so the earlier one then counts as a hit. |
| Level.PlatformAt | game.js:71-75 | A platform at x is 100 + 120u wide and 20 high, with its top at 260 + 120u. BuildShape states the bounds. |
| Level.EnemyAbove | game.js:78-84 | The enemy's left edge is at the platform's midpoint and its top 30 above the platform. It is 30×30 with speed 1.5 + u. BuildEnemiesRide states the bounds. |
| Level.NextX | game.js:87 | The running x moves to the platform's right edge plus 80 + 120u. BuildSpacing states the gaps. |
| Level.BuildUpTo | game.js:70-88 | The first n iterations of the generator loop: one platform appended each time, an enemy only when the coin is below 0.6, and the running x advanced. |
| Level.Segment | game.js:67-89 | `generateSegment`: the three iterations from startX. |
| Level.RiderCount | game.js:77 | The number of draws that place an enemy is at most the number of iterations. |
| Level.BuildShape | game.js:67-89 | Generation appends one platform per iteration. Each is 20 high, 100 to 220 wide, with its top in [260, 380), and the first is at startX. |
| Level.BuildSpacing | game.js:67-89 | Each new platform starts 80 to 200 right of the previous one's right edge. The i-th one's x is at least startX + 180i. |
| Level.BuildSorted | game.js:67-89 | The generated platforms have strictly increasing x. |
| Level.BuildEnemyCount | game.js:77-85 | A segment has exactly one enemy per draw whose coin is below 0.6. |
| Level.BuildEnemiesRide | game.js:77-85 | Every generated enemy is 30×30 with speed in [1.5, 2.5). Its left edge is at the midpoint of the platform whose coin placed it, and its top is 30 above that platform. |
| Level.BuildEnemiesPlaced | game.js:77-85 | Every platform whose coin is below 0.6 gets its enemy. |
| Level.Retain | game.js:91-94 | Cleanup keeps exactly the entities whose right edge is right of the limit, in their original relative order. Each kept value occurs as often as in the input, and each removed one not at all. |
| Level.RetainIdempotent | game.js:91-94 | Cleaning twice removes nothing more. |
| Level.RetainKeepsLast | game.js:91-94 | The last entity survives, and stays last, when it is right of the limit. |
| Level.RetainSorted | game.js:92 | Cleanup keeps the platforms sorted by x. |
| Level.RetainKeepsWidths | game.js:92 | Cleanup keeps positive widths positive. |
| Level.CleanupBoundary | game.js:91-94 | A right edge exactly at cameraX - 200 is removed; one unit further right, it is kept. |
| Game.InitialState | game.js:31-54 | The world at the start: the initial player, camera 0, the ground platform alone and no enemies. InitialGood states that it satisfies the frame invariant. |
| Game.Simulate | game.js:221-222 | The player step, then the enemy pass. The pass respawns the player against the camera the player step just set, and the platforms are untouched. SimulateBounds states its bounds. |
| Game.NeedsSegment | game.js:224 | A segment is needed when the last platform's left x is left of the camera's right edge. |
| Game.Generate | game.js:224-226 | When a segment is needed, Segment's platforms and enemies are appended, starting 200 right of the last platform's x. GenerateAppends and GenerateKeepsOrder state its results. |
| Game.Cleanup | game.js:91-94 | Both lists are filtered by Retain against cameraX - 200. CleanupKeepsGood states what it keeps. |
| Game.Tick | game.js:220-228 | One frame: player step, enemy pass, generation, then cleanup. TickPreservesGood states the invariant it keeps. |
| Game.InitialGood | game.js:31-54 | The initial world satisfies the frame invariant. |
| Game.GenerateAppends | game.js:224-226 | The generation step appends and removes nothing. It appends exactly three platforms iff the last platform's left x is left of cameraX + canvas width. The first new platform starts 200 right of that x, with at most three new enemies. |
| Game.SimulateBounds | game.js:220-222 | After the player and enemy steps the camera has moved right by at most 10, the player is at most 150 ahead of it, and the player's counters are in range. |
| Game.GenerateKeepsOrder | game.js:224-226 | Generation keeps the platform list non-empty, sorted by x and of positive widths. When it fires, the new last platform is at least 560 further right. |
| Game.CleanupKeepsGood | game.js:91-94 | Cleanup restores the frame invariant when the last platform is not far behind the camera. |
| Game.TickPreservesGood | game.js:220-228 | Every frame keeps the invariant: platforms non-empty (so the look-up of the last one at line 224 never fails), sorted and of positive width; the last one not far behind the camera; the player's counters in range. |
| Platformer.Input.constructor | game.js:27 | No key is held at the start. |
| Platformer.World.constructor | game.js:31-54 | The initial player, camera 0, the ground platform, no enemies; the invariant holds. |
| Platformer.World.ResetPlayer | game.js:164-170 | The player is placed 100 right of the camera at y 300, at rest, with both jumps; all else unchanged. |
| Platformer.World.ApplyIntent | game.js:98-102 | In place, vx becomes Steer of the player and keys. |
| Platformer.World.TryJump | game.js:104-111 | In place, the player and key map become Jump of their old values. |
| Platformer.World.DashAndIntegrate | game.js:113-125 | In place, the player becomes Integrate(Dash(...)). |
| Platformer.World.LandOnPlatforms | game.js:127-141 | The loop over the platforms leaves the player as Land does. |
| Platformer.World.UpdatePlayer | game.js:97-153 | The player, the camera and the key map become PlayerStep of their old values; the lists are untouched. |
| Platformer.World.HandleEnemy | game.js:175-188 | One iteration moves enemy i, then splices it out on a stomp or a hit, as Handle describes. |
| Platformer.World.UpdateEnemies | game.js:173-190 | The reverse loop with in-place splicing leaves the player and enemy list as Pass does. |
| Platformer.World.GenerateSegment | game.js:67-89 | The three pushes append exactly Segment's platforms and enemies; nothing else changes. |
| Platformer.World.CleanupWorld | game.js:91-94 | Both lists become their Retain filters. |
| Platformer.World.GameLoop | game.js:220-228 | One frame leaves exactly Tick's state and keys, and keeps the frame invariant. |

## Left out

- `draw` (game.js:193-217) is left out: canvas rendering and the HUD text are output only. So are `normalH`/`smallH`, which only `draw` reads. The collision height is always 40.
- The DOM key listeners (game.js:27-29) are left out. `Input` is the key map they would write. A key never pressed reads as released.
- `requestAnimationFrame` and the endless loop (game.js:229-234) are left out. `GameLoop` is one frame.
- `Math.random()` (game.js:71, 73, 77, 83, 87) is replaced by `Draw` parameters in [0, 1). The enemy-speed draw is taken only when the coin places an enemy, as in the source.
- IEEE double arithmetic is modelled as exact `real` arithmetic, so no rounding is modelled.
- `canvas.width` and `canvas.height` (game.js:147, 224) are constructor constants. The frame invariant needs a width that is not negative.
- `CONFIG.segmentWidth` (game.js:24) is never read by the script, and is not modelled.
- Enemy placement follows the code: the enemy's left edge is at the platform's midpoint (game.js:79), so the enemy is not centred on the platform.
- The generation trigger follows the code: it compares the last platform's left x, not its right edge, with the camera's right edge (game.js:224).
- PlayerPhysics.LandingOutcome: the platform the player stands on is stated through the sequential landing loop (the winner of SweepWinner), not as "the last platform that passes against the arriving player". PlayerPhysics.ChainedLanding shows that the two differ.
