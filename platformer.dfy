/** The script's global state as objects: the key map, and the world that
    holds the player record, the camera offset and the platform and enemy
    lists. Each method is one of the script's functions, updating the state
    in place, and is proved to leave exactly the state that the
    corresponding function of PlayerPhysics, EnemyPhysics, Level or Game
    describes. */
module Platformer {
  import opened Geometry
  import opened Entities
  import opened Sequences
  import opened PlayerPhysics
  import opened EnemyPhysics
  import opened Level
  import opened Game

  /** The key map: written by the key listeners, read by updatePlayer, which
      also clears the jump keys. A key never pressed reads as released. */
  class Input {
    var a: bool
    var d: bool
    var w: bool
    var space: bool
    var shift: bool

    constructor ()
      ensures Snapshot() == Keys(false, false, false, false, false)
    {
      a, d, w, space, shift := false, false, false, false, false;
    }

    function Snapshot(): Keys
      reads this
    {
      Keys(a, d, w, space, shift)
    }
  }

  class World {
    var player: Player
    var cameraX: real
    var platforms: seq<Rect>
    var enemies: seq<Enemy>
    /** The canvas size, fixed for the session. */
    const canvasWidth: real
    const canvasHeight: real

    function Snapshot(): State
      reads this
    {
      State(player, cameraX, platforms, enemies)
    }

    ghost predicate Valid()
      reads this
    {
      Good(Snapshot()) && canvasWidth >= 0.0
    }

    /** The state the script sets up before its first frame. */
    constructor (width: real, height: real)
      requires width >= 0.0
      ensures Snapshot() == InitialState() && canvasWidth == width && canvasHeight == height
      ensures Valid()
    {
      player := InitialPlayer();
      cameraX := 0.0;
      platforms := [Ground];
      enemies := [];
      canvasWidth, canvasHeight := width, height;
      InitialGood();
    }

    /** resetPlayer */
    method ResetPlayer()
      modifies this
      ensures player == Reset(old(player), cameraX)
      ensures cameraX == old(cameraX) && platforms == old(platforms) && enemies == old(enemies)
    {
      player := player.(x := cameraX + RespawnOffset);
      player := player.(y := RespawnY);
      player := player.(vx := 0.0);
      player := player.(vy := 0.0);
      player := player.(jumpsLeft := MaxJumps);
    }

    /** updatePlayer, lines 98-102: horizontal intent. */
    method ApplyIntent(keys: Input)
      modifies this
      ensures player == Steer(old(player), keys.Snapshot())
      ensures cameraX == old(cameraX) && platforms == old(platforms) && enemies == old(enemies)
    {
      var speed := if player.isSmall then CrawlSpeed else MoveSpeed;
      player := player.(vx := 0.0);
      if keys.a {
        player := player.(vx := -speed);
      }
      if keys.d {
        player := player.(vx := speed);
      }
    }

    /** updatePlayer, lines 104-111: the jump, which releases both jump
        keys. */
    method TryJump(keys: Input)
      modifies this, keys
      ensures (player, keys.Snapshot()) == Jump(old(player), old(keys.Snapshot()))
      ensures cameraX == old(cameraX) && platforms == old(platforms) && enemies == old(enemies)
    {
      if (keys.w || keys.space) && player.jumpsLeft > 0 {
        player := player.(vy := if player.jumpsLeft == 2 then -JumpForce else -DoubleJumpForce);
        player := player.(jumpsLeft := player.jumpsLeft - 1);
        keys.w, keys.space := false, false;
      }
    }

    /** updatePlayer, lines 113-125: the dash, then gravity and movement. */
    method DashAndIntegrate(keys: Input)
      modifies this
      ensures player == Integrate(Dash(old(player), keys.Snapshot()))
      ensures cameraX == old(cameraX) && platforms == old(platforms) && enemies == old(enemies)
    {
      if keys.shift && player.dashTimer == 0 {
        player := player.(dashTimer := DashTime);
        player := player.(isSmall := true);
      }
      if player.dashTimer > 0 {
        player := player.(vx := DashSpeed);
        player := player.(dashTimer := player.dashTimer - 1);
      }

      player := player.(vy := player.vy + Gravity);
      player := player.(x := player.x + player.vx);
      player := player.(y := player.y + player.vy);
    }

    /** updatePlayer, lines 127-141: the landing loop over every platform
        in list order. */
    method LandOnPlatforms()
      modifies this
      ensures player == Land(old(player), platforms)
      ensures cameraX == old(cameraX) && platforms == old(platforms) && enemies == old(enemies)
    {
      player := player.(onGround := false);
      ghost var arriving := player;
      for i := 0 to |platforms|
        invariant cameraX == old(cameraX) && platforms == old(platforms) && enemies == old(enemies)
        invariant player == Sweep(arriving, platforms[..i])
      {
        var p := platforms[i];
        assert platforms[..i + 1][..i] == platforms[..i];
        if Lands(player, p) {
          player := player.(y := p.y - player.h);
          player := player.(vy := 0.0);
          player := player.(onGround := true);
          player := player.(jumpsLeft := MaxJumps);
        }
      }
      assert platforms[..|platforms|] == platforms;
    }

    /** updatePlayer: the phases in order, then size recovery, the fall
        check against the previous frame's camera, and the camera follow. */
    method UpdatePlayer(keys: Input)
      modifies this, keys
      ensures var o := PlayerStep(old(player), old(keys.Snapshot()), platforms, old(cameraX), canvasHeight);
              player == o.player && cameraX == o.cameraX && keys.Snapshot() == o.keys
      ensures platforms == old(platforms) && enemies == old(enemies)
    {
      ghost var p0, k0 := player, keys.Snapshot();
      ApplyIntent(keys);
      TryJump(keys);
      DashAndIntegrate(keys);
      ghost var moved := Move(p0, k0);
      assert player == moved.0 && keys.Snapshot() == moved.1;
      LandOnPlatforms();
      ghost var landed := player;

      if player.onGround && !InLowSpace(player.Box(), platforms) {
        player := player.(isSmall := false);
      }
      assert player == Recover(landed, platforms);

      if player.y > canvasHeight {
        player := player.(lives := player.lives - 1);
        ResetPlayer();
      }

      cameraX := player.x - CameraLead;
    }

    /** One iteration of updateEnemies' loop: move enemy i, and on contact
        splice it out and stomp or get hit. */
    method HandleEnemy(i: int)
      requires 0 <= i < |enemies|
      modifies this
      ensures var h := Handle(Tally(old(player), old(enemies[i + 1..]), 0, 0), Advance(old(enemies[i])), cameraX);
              player == h.player && enemies == old(enemies[..i]) + h.survivors
      ensures cameraX == old(cameraX) && platforms == old(platforms)
    {
      var e := enemies[i];
      e := e.(x := e.x - e.speed);
      enemies := enemies[i := e];
      assert enemies[..i] == old(enemies[..i]) && enemies[i + 1..] == old(enemies[i + 1..]);
      if Intersects(player.Box(), e.Box()) {
        if player.vy > 0.0 {
          enemies := enemies[..i] + enemies[i + 1..];
          player := player.(vy := StompBounce);
          player := player.(score := player.score + StompReward);
        } else {
          player := player.(lives := player.lives - 1);
          enemies := enemies[..i] + enemies[i + 1..];
          ResetPlayer();
        }
      }
    }

    /** updateEnemies: the loop from the last index down to the first. */
    method UpdateEnemies()
      modifies this
      ensures var t := Pass(old(player), old(enemies), cameraX);
              player == t.player && enemies == t.survivors
      ensures cameraX == old(cameraX) && platforms == old(platforms)
    {
      ghost var p0, es0, cam := player, enemies, cameraX;
      var i := |enemies| - 1;
      while i >= 0
        invariant -1 <= i < |es0|
        invariant enemies == es0[..i + 1] + PassFrom(p0, es0, cam, i + 1).survivors
        invariant player == PassFrom(p0, es0, cam, i + 1).player
        invariant cameraX == cam && platforms == old(platforms)
        decreases i
      {
        ghost var t := PassFrom(p0, es0, cam, i + 1);
        PrefixParts(es0, i, t.survivors);
        HandleEnemy(i);
        i := i - 1;
      }
      assert es0[..0] == [];
    }

    /** generateSegment(startX), with the random numbers of each iteration
        passed in. */
    method GenerateSegment(startX: real, draws: seq<Draw>)
      requires |draws| == SegmentSize
      modifies this
      ensures var b := Segment(startX, draws);
              platforms == old(platforms) + b.platforms && enemies == old(enemies) + b.enemies
      ensures player == old(player) && cameraX == old(cameraX)
    {
      var x := startX;
      for i := 0 to SegmentSize
        invariant var b := BuildUpTo(startX, draws, i);
                  platforms == old(platforms) + b.platforms &&
                  enemies == old(enemies) + b.enemies &&
                  x == b.nextX
        invariant player == old(player) && cameraX == old(cameraX)
      {
        var width := 100.0 + draws[i].width * 120.0;
        var height := PlatformHeight;
        var y := 260.0 + draws[i].y * 120.0;

        platforms := platforms + [Rect(x, y, width, height)];

        if draws[i].coin < EnemyChance {
          enemies := enemies + [Enemy(x + width / 2.0, y - 30.0, EnemySize, EnemySize, 1.5 + draws[i].speed)];
        }

        x := x + width + 80.0 + draws[i].gap * 120.0;
      }
    }

    /** cleanupWorld */
    method CleanupWorld()
      modifies this
      ensures Snapshot() == Cleanup(old(Snapshot()))
    {
      platforms := Retain(platforms, RightEdge, cameraX - CleanupMargin);
      enemies := Retain(enemies, EnemyRightEdge, cameraX - CleanupMargin);
    }

    /** One pass of gameLoop without drawing and rescheduling. */
    method GameLoop(keys: Input, draws: seq<Draw>)
      requires Valid() && |draws| == SegmentSize && ValidDraws(draws)
      modifies this, keys
      ensures Valid()
      ensures (Snapshot(), keys.Snapshot()) ==
                Tick(old(Snapshot()), old(keys.Snapshot()), canvasWidth, canvasHeight, draws)
    {
      ghost var s0, k0 := Snapshot(), keys.Snapshot();
      UpdatePlayer(keys);
      UpdateEnemies();
      ghost var mid, k1 := Snapshot(), keys.Snapshot();
      assert (mid, k1) == Simulate(s0, k0, canvasHeight);
      if platforms[|platforms| - 1].x < cameraX + canvasWidth {
        GenerateSegment(platforms[|platforms| - 1].x + SegmentOffset, draws);
      }
      assert Snapshot() == Generate(mid, canvasWidth, draws);
      CleanupWorld();
      assert Snapshot() == Cleanup(Generate(mid, canvasWidth, draws));
      assert keys.Snapshot() == k1;
      TickPreservesGood(s0, k0, canvasWidth, canvasHeight, draws);
    }
  }
}
