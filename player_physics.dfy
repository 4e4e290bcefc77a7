/** updatePlayer as a function of the player, the held keys, the platforms,
    the camera offset and the canvas height, split into the phases the
    source runs in order: horizontal intent, jump, dash, integration,
    landing, size recovery, fall check and camera follow. */
module PlayerPhysics {
  import opened Geometry
  import opened Entities

  /** Horizontal intent: 'd' is tested after 'a', so it wins when both are
      held; the speed is the crawl speed while isSmall is set. */
  function Steer(p: Player, k: Keys): Player
  {
    var speed := if p.isSmall then CrawlSpeed else MoveSpeed;
    p.(vx := if k.d then speed else if k.a then -speed else 0.0)
  }

  predicate JumpHeld(k: Keys)
  {
    k.w || k.space
  }

  predicate JumpFires(p: Player, k: Keys)
  {
    JumpHeld(k) && p.jumpsLeft > 0
  }

  /** The jump spends one jump and releases both jump keys, so holding the
      key does not jump again on the next frame. */
  function Jump(p: Player, k: Keys): (Player, Keys)
  {
    if JumpFires(p, k) then
      (p.(vy := if p.jumpsLeft == 2 then -JumpForce else -DoubleJumpForce,
          jumpsLeft := p.jumpsLeft - 1),
       k.(w := false, space := false))
    else
      (p, k)
  }

  predicate DashStarts(p: Player, k: Keys)
  {
    k.shift && p.dashTimer == 0
  }

  /** Starting a dash arms the timer and sets isSmall; a running dash
      forces the rightward dash speed and counts down, on the starting frame
      too. */
  function Dash(p: Player, k: Keys): Player
  {
    var q := if DashStarts(p, k) then p.(dashTimer := DashTime, isSmall := true) else p;
    if q.dashTimer > 0 then q.(vx := DashSpeed, dashTimer := q.dashTimer - 1) else q
  }

  /** Gravity first, then both coordinates move by the velocity. */
  function Integrate(p: Player): Player
  {
    var vy := p.vy + Gravity;
    p.(vy := vy, x := p.x + p.vx, y := p.y + vy)
  }

  /** Everything the step does before it looks at the platforms, with the
      keys as the jump leaves them. */
  function Move(p: Player, k: Keys): (Player, Keys)
  {
    var (q, k') := Jump(Steer(p, k), k);
    (Integrate(Dash(q, k')), k')
  }

  /** The one-directional landing test: horizontal overlap, the bottom edge
      at most 10 below the platform top, and the bottom edge swept by vy
      reaching the top. */
  predicate Lands(p: Player, q: Rect)
  {
    p.x < q.x + q.w &&
    p.x + p.w > q.x &&
    p.y + p.h <= q.y + 10.0 &&
    p.y + p.h + p.vy >= q.y
  }

  /** Standing on q: bottom edge on its top, at rest, both jumps back. */
  function Snap(p: Player, q: Rect): Player
  {
    p.(y := q.y - p.h, vy := 0.0, onGround := true, jumpsLeft := MaxJumps)
  }

  function LandOn(p: Player, q: Rect): Player
  {
    if Lands(p, q) then Snap(p, q) else p
  }

  /** The landing loop: every platform in list order is tested against the
      player as the earlier platforms have left it. */
  function Sweep(p: Player, ps: seq<Rect>): Player
    decreases |ps|
  {
    if ps == [] then p else LandOn(Sweep(p, ps[..|ps| - 1]), ps[|ps| - 1])
  }

  function Land(p: Player, ps: seq<Rect>): Player
  {
    Sweep(p.(onGround := false), ps)
  }

  /** isSmall is cleared only when the player stands with headroom. */
  function Recover(p: Player, ps: seq<Rect>): Player
  {
    if p.onGround && !InLowSpace(p.Box(), ps) then p.(isSmall := false) else p
  }

  predicate Falls(p: Player, canvasHeight: real)
  {
    p.y > canvasHeight
  }

  /** Below the canvas: one life less and a respawn relative to the camera
      of the previous frame. */
  function FallCheck(p: Player, cameraX: real, canvasHeight: real): Player
  {
    if Falls(p, canvasHeight) then Reset(p.(lives := p.lives - 1), cameraX) else p
  }

  /** The player after the landing loop: the state that size recovery and
      the fall check look at. */
  function Landed(p: Player, k: Keys, ps: seq<Rect>): Player
  {
    Land(Move(p, k).0, ps)
  }

  /** What one call of updatePlayer leaves behind. */
  datatype Outcome = Outcome(player: Player, keys: Keys, cameraX: real)

  function PlayerStep(p: Player, k: Keys, ps: seq<Rect>, cameraX: real, canvasHeight: real): Outcome
  {
    var r := FallCheck(Recover(Landed(p, k, ps), ps), cameraX, canvasHeight);
    Outcome(r, Move(p, k).1, r.x - CameraLead)
  }

  /** n frames in a row, with the keys carried over from frame to frame as
      the step leaves them and no key event in between. */
  function Run(p: Player, k: Keys, ps: seq<Rect>, cameraX: real, canvasHeight: real, n: nat): Outcome
    decreases n
  {
    if n == 0 then Outcome(p, k, cameraX)
    else
      var o := PlayerStep(p, k, ps, cameraX, canvasHeight);
      Run(o.player, o.keys, ps, o.cameraX, canvasHeight, n - 1)
  }

  // ---------------------------------------------------------------------
  // The landing loop

  lemma SnapTwice(p: Player, a: Rect, b: Rect)
    ensures Snap(Snap(p, a), b) == Snap(p, b)
  {
  }

  /** If no platform passes the test against the incoming player, the loop
      changes nothing. */
  lemma {:induction false} SweepNoMatch(s: Player, ps: seq<Rect>)
    requires forall i :: 0 <= i < |ps| ==> !Lands(s, ps[i])
    ensures Sweep(s, ps) == s
    decreases |ps|
  {
    if ps != [] {
      var init := ps[..|ps| - 1];
      assert forall i :: 0 <= i < |init| ==> init[i] == ps[i];
      SweepNoMatch(s, init);
    }
  }

  /** Platform k wins the landing loop: it passed the test against the
      player as platforms 0 to k-1 left it, the player ends standing on it,
      and no later platform passes against the player standing on it. */
  ghost predicate WinsAt(s: Player, ps: seq<Rect>, k: int)
  {
    0 <= k < |ps| && Lands(Sweep(s, ps[..k]), ps[k]) &&
    Sweep(s, ps) == Snap(s, ps[k]) &&
    forall j :: k < j < |ps| ==> !Lands(Snap(s, ps[k]), ps[j])
  }

  /** The last platform wins when it passes against the player as the
      others left it, provided they left it alone or standing somewhere. */
  lemma LastWins(s: Player, ps: seq<Rect>, q: Rect)
    requires |ps| > 0 && Lands(Sweep(s, ps[..|ps| - 1]), ps[|ps| - 1])
    requires Sweep(s, ps[..|ps| - 1]) == s || Sweep(s, ps[..|ps| - 1]) == Snap(s, q)
    ensures WinsAt(s, ps, |ps| - 1)
  {
    var n := |ps|;
    assert Sweep(s, ps) == Snap(Sweep(s, ps[..n - 1]), ps[n - 1]);
    SnapTwice(s, q, ps[n - 1]);
  }

  /** A winner of all but the last platform stays the winner when the last
      one does not pass against the player standing on it. */
  lemma EarlierWins(s: Player, ps: seq<Rect>, k: int)
    requires |ps| > 0 && WinsAt(s, ps[..|ps| - 1], k)
    requires !Lands(Sweep(s, ps[..|ps| - 1]), ps[|ps| - 1])
    ensures WinsAt(s, ps, k)
  {
    var n := |ps|;
    var init := ps[..n - 1];
    assert init[..k] == ps[..k] && init[k] == ps[k];
    assert Sweep(s, ps) == Sweep(s, init);
    forall j | k < j < n
      ensures !Lands(Snap(s, ps[k]), ps[j])
    {
      if j < n - 1 {
        assert init[j] == ps[j];
      }
    }
  }

  /** If some platform passes the test against the incoming player, the
      player ends up standing on a winner k: the last platform in list order
      that passed the test when the loop reached it. */
  lemma {:induction false} SweepWinner(s: Player, ps: seq<Rect>)
    requires exists i :: 0 <= i < |ps| && Lands(s, ps[i])
    ensures exists k :: WinsAt(s, ps, k)
    decreases |ps|
  {
    var n := |ps|;
    var init := ps[..n - 1];
    if exists i :: 0 <= i < n - 1 && Lands(s, init[i]) {
      SweepWinner(s, init);
      var k :| WinsAt(s, init, k);
      if Lands(Sweep(s, init), ps[n - 1]) {
        LastWins(s, ps, init[k]);
      } else {
        EarlierWins(s, ps, k);
      }
    } else {
      var i :| 0 <= i < n && Lands(s, ps[i]);
      assert i == n - 1;
      assert Sweep(s, init) == s by {
        assert forall i :: 0 <= i < |init| ==> !Lands(s, init[i]);
        SweepNoMatch(s, init);
      }
      LastWins(s, ps, ps[i]);
    }
  }

  /** The loop tests each platform against the player as the earlier ones
      left it, so the winner need not be the last platform that passes
      against the arriving player: a platform 5 higher that the arriving
      player misses wins once it stands on the first, and a platform 10
      lower that it would land on loses once it stands. */
  lemma ChainedLanding(s: Player)
    requires s.x == 0.0 && s.w == PlayerSize && s.h == PlayerSize
    ensures var low, high := Rect(0.0, 100.0, 100.0, 20.0), Rect(0.0, 95.0, 100.0, 20.0);
            s.y == 68.0 && s.vy == 5.0 ==>
              Lands(s, low) && !Lands(s, high) && Sweep(s, [low, high]) == Snap(s, high)
    ensures var low, lower := Rect(0.0, 100.0, 100.0, 20.0), Rect(0.0, 110.0, 100.0, 20.0);
            s.y == 65.0 && s.vy == 10.0 ==>
              Lands(s, low) && Lands(s, lower) && Sweep(s, [low, lower]) == Snap(s, low)
  {
    var low, high, lower := Rect(0.0, 100.0, 100.0, 20.0), Rect(0.0, 95.0, 100.0, 20.0), Rect(0.0, 110.0, 100.0, 20.0);
    assert [low][..0] == [] && Sweep(s, [low]) == LandOn(s, low);
    assert [low, high][..1] == [low] && Sweep(s, [low, high]) == LandOn(LandOn(s, low), high);
    assert [low, lower][..1] == [low] && Sweep(s, [low, lower]) == LandOn(LandOn(s, low), lower);
    if s.y == 68.0 && s.vy == 5.0 {
      SnapTwice(s, low, high);
    }
  }

  /** The loop either leaves the player alone or stands it on a platform. */
  lemma SweepCases(s: Player, ps: seq<Rect>)
    ensures Sweep(s, ps) == s || exists k :: 0 <= k < |ps| && Sweep(s, ps) == Snap(s, ps[k])
  {
    if exists i :: 0 <= i < |ps| && Lands(s, ps[i]) {
      SweepWinner(s, ps);
    } else {
      SweepNoMatch(s, ps);
    }
  }

  // ---------------------------------------------------------------------
  // Properties of one step

  /** The landing phase on its own: the player stands afterwards iff some
      platform passes the test against it as it arrives; then it stands on
      a winner w, which passed the test when the loop reached it and after
      which no later platform passed; otherwise only the ground flag is
      cleared. */
  lemma LandResult(m: Player, ps: seq<Rect>)
    ensures Land(m, ps).onGround <==> exists i :: 0 <= i < |ps| && Lands(m, ps[i])
    ensures (exists i :: 0 <= i < |ps| && Lands(m, ps[i])) ==>
              exists w :: 0 <= w < |ps| && Lands(Land(m, ps[..w]), ps[w]) && Land(m, ps) == Snap(m, ps[w]) &&
                forall j :: w < j < |ps| ==> !Lands(Snap(m, ps[w]), ps[j])
    ensures (forall i :: 0 <= i < |ps| ==> !Lands(m, ps[i])) ==> Land(m, ps) == m.(onGround := false)
  {
    var s := m.(onGround := false);
    assert forall q :: Lands(s, q) == Lands(m, q);
    assert forall q :: Snap(s, q) == Snap(m, q);
    if exists i :: 0 <= i < |ps| && Lands(m, ps[i]) {
      SweepWinner(s, ps);
    } else {
      SweepNoMatch(s, ps);
    }
  }

  /** Landing: the player ends the step standing iff some platform passes
      the landing test against the player as it arrives; then it is at rest
      with both jumps, and unless it fell it stands on the winning platform,
      after which no later platform passed. */
  lemma LandingOutcome(p: Player, k: Keys, ps: seq<Rect>, cameraX: real, canvasHeight: real)
    ensures var m := Move(p, k).0;
            var o := PlayerStep(p, k, ps, cameraX, canvasHeight).player;
            o.onGround <==> exists i :: 0 <= i < |ps| && Lands(m, ps[i])
    ensures var m := Move(p, k).0;
            var o := PlayerStep(p, k, ps, cameraX, canvasHeight).player;
            (exists i :: 0 <= i < |ps| && Lands(m, ps[i])) && !Falls(Landed(p, k, ps), canvasHeight) ==>
              o.vy == 0.0 && o.jumpsLeft == MaxJumps &&
              exists w :: 0 <= w < |ps| && Lands(Land(m, ps[..w]), ps[w]) && o.y == ps[w].y - p.h &&
                forall j :: w < j < |ps| ==> !Lands(Snap(m, ps[w]), ps[j])
    ensures var m := Move(p, k).0;
            var o := PlayerStep(p, k, ps, cameraX, canvasHeight).player;
            (forall i :: 0 <= i < |ps| ==> !Lands(m, ps[i])) && !Falls(Landed(p, k, ps), canvasHeight) ==>
              o.y == m.y && o.vy == m.vy
  {
    var m := Move(p, k).0;
    var l := Landed(p, k, ps);
    LandResult(m, ps);
    var o := PlayerStep(p, k, ps, cameraX, canvasHeight).player;
    assert o.onGround == l.onGround;
    assert !Falls(l, canvasHeight) ==> o.y == l.y && o.vy == l.vy && o.jumpsLeft == l.jumpsLeft;
    assert m.h == p.h;
  }

  /** jumpsLeft after a step: back to two after a landing or a respawn,
      otherwise one less if the jump fired and unchanged if not. */
  lemma JumpsLeftAfterStep(p: Player, k: Keys, ps: seq<Rect>, cameraX: real, canvasHeight: real)
    ensures var o := PlayerStep(p, k, ps, cameraX, canvasHeight).player;
            o.jumpsLeft ==
              if o.onGround || Falls(Landed(p, k, ps), canvasHeight) then MaxJumps
              else if JumpFires(p, k) then p.jumpsLeft - 1
              else p.jumpsLeft
  {
    var s := Move(p, k).0.(onGround := false);
    SweepCases(s, ps);
  }

  /** The jump impulse and the edge trigger: a jump sets the rising speed
      (12 for the first jump, 10 for the second, before gravity) and
      releases both jump keys; without a jump the keys come back as they
      were. */
  lemma JumpImpulse(p: Player, k: Keys)
    ensures JumpFires(p, k) ==>
              Move(p, k).0.vy == (if p.jumpsLeft == 2 then -JumpForce else -DoubleJumpForce) + Gravity &&
              Move(p, k).1 == k.(w := false, space := false)
    ensures !JumpFires(p, k) ==> Move(p, k).0.vy == p.vy + Gravity && Move(p, k).1 == k
  {
  }

  /** With no jump left, holding a jump key changes nothing. */
  lemma JumpWithoutBudgetIgnored(p: Player, k: Keys, ps: seq<Rect>, cameraX: real, canvasHeight: real)
    requires p.jumpsLeft <= 0
    ensures var o := PlayerStep(p, k, ps, cameraX, canvasHeight);
            var o' := PlayerStep(p, k.(w := false, space := false), ps, cameraX, canvasHeight);
            o.player == o'.player && o.cameraX == o'.cameraX && o.keys == k
  {
  }

  /** The dash timer after a step: a running dash counts down, a dash started
      this frame already shows 11, otherwise it stays at zero. */
  lemma DashTimerStep(p: Player, k: Keys, ps: seq<Rect>, cameraX: real, canvasHeight: real)
    requires p.dashTimer >= 0
    ensures PlayerStep(p, k, ps, cameraX, canvasHeight).player.dashTimer ==
              if p.dashTimer > 0 then p.dashTimer - 1
              else if k.shift then DashTime - 1
              else 0
  {
    var s := Move(p, k).0.(onGround := false);
    SweepCases(s, ps);
  }

  /** Horizontal velocity after a step without a fall: the dash speed, to
      the right, while a dash runs (including its first frame); otherwise 'd'
      beats 'a', at crawl speed while isSmall is set, and no key means standing still. */
  lemma VelocityAfterStep(p: Player, k: Keys, ps: seq<Rect>, cameraX: real, canvasHeight: real)
    requires !Falls(Landed(p, k, ps), canvasHeight)
    ensures var speed := if p.isSmall then CrawlSpeed else MoveSpeed;
            PlayerStep(p, k, ps, cameraX, canvasHeight).player.vx ==
              if p.dashTimer > 0 || DashStarts(p, k) then DashSpeed
              else if k.d then speed
              else if k.a then -speed
              else 0.0
  {
    var s := Move(p, k).0.(onGround := false);
    SweepCases(s, ps);
  }

  /** isSmall after a step: it was set or a dash started, and the player
      did not both stand and have headroom. */
  lemma SizeAfterStep(p: Player, k: Keys, ps: seq<Rect>, cameraX: real, canvasHeight: real)
    ensures var l := Landed(p, k, ps);
            PlayerStep(p, k, ps, cameraX, canvasHeight).player.isSmall <==>
              (p.isSmall || DashStarts(p, k)) && !(l.onGround && !InLowSpace(l.Box(), ps))
  {
    var s := Move(p, k).0.(onGround := false);
    SweepCases(s, ps);
  }

  /** Falling below the canvas costs a life and respawns the player at rest
      next to the previous camera; otherwise lives stay and the player moved
      by its horizontal velocity, which is at most the dash speed. The score
      never changes, and the camera trails the player by 150. */
  lemma FallAndAdvance(p: Player, k: Keys, ps: seq<Rect>, cameraX: real, canvasHeight: real)
    ensures var o := PlayerStep(p, k, ps, cameraX, canvasHeight);
            Falls(Landed(p, k, ps), canvasHeight) ==>
              o.player.lives == p.lives - 1 &&
              o.player.x == cameraX + RespawnOffset && o.player.y == RespawnY &&
              o.player.vx == 0.0 && o.player.vy == 0.0 && o.player.jumpsLeft == MaxJumps
    ensures var o := PlayerStep(p, k, ps, cameraX, canvasHeight);
            !Falls(Landed(p, k, ps), canvasHeight) ==>
              o.player.lives == p.lives && o.player.x == p.x + o.player.vx && o.player.x <= p.x + DashSpeed
    ensures var o := PlayerStep(p, k, ps, cameraX, canvasHeight);
            o.player.score == p.score && o.cameraX == o.player.x - CameraLead
  {
    var s := Move(p, k).0.(onGround := false);
    SweepCases(s, ps);
  }

  /** The step keeps the fixed size and both counters in range. */
  lemma StepKeepsPlayerValid(p: Player, k: Keys, ps: seq<Rect>, cameraX: real, canvasHeight: real)
    requires ValidPlayer(p)
    ensures ValidPlayer(PlayerStep(p, k, ps, cameraX, canvasHeight).player)
  {
    var s := Move(p, k).0.(onGround := false);
    SweepCases(s, ps);
  }

  // ---------------------------------------------------------------------
  // Several frames

  /** With shift released, the dash timer reaches zero after as many frames
      as it shows, and stays there. */
  lemma {:induction false} DashRunsOut(p: Player, k: Keys, ps: seq<Rect>, cameraX: real, canvasHeight: real, n: nat)
    requires !k.shift && p.dashTimer >= 0
    ensures Run(p, k, ps, cameraX, canvasHeight, n).player.dashTimer ==
              if n >= p.dashTimer then 0 else p.dashTimer - n
    decreases n
  {
    if n > 0 {
      var o := PlayerStep(p, k, ps, cameraX, canvasHeight);
      DashTimerStep(p, k, ps, cameraX, canvasHeight);
      JumpImpulse(p, k);
      DashRunsOut(o.player, o.keys, ps, o.cameraX, canvasHeight, n - 1);
    }
  }

  /** A dash started on one frame lasts twelve frames in all: after the
      starting frame and eleven more with shift released the timer is zero,
      and after only ten more it is still running. */
  lemma DashLastsTwelveFrames(p: Player, k: Keys, ps: seq<Rect>, cameraX: real, canvasHeight: real)
    requires k.shift && p.dashTimer == 0
    ensures var o := PlayerStep(p, k, ps, cameraX, canvasHeight);
            var k' := o.keys.(shift := false);
            Run(o.player, k', ps, o.cameraX, canvasHeight, DashTime - 1).player.dashTimer == 0 &&
            Run(o.player, k', ps, o.cameraX, canvasHeight, DashTime - 2).player.dashTimer > 0
  {
    var o := PlayerStep(p, k, ps, cameraX, canvasHeight);
    DashTimerStep(p, k, ps, cameraX, canvasHeight);
    DashRunsOut(o.player, o.keys.(shift := false), ps, o.cameraX, canvasHeight, DashTime - 1);
    DashRunsOut(o.player, o.keys.(shift := false), ps, o.cameraX, canvasHeight, DashTime - 2);
  }

  /** The initial ground platform. */
  const Ground: Rect := Rect(0.0, GroundY, 600.0, 60.0)

  /** Only 'd' held. */
  const RightOnly: Keys := Keys(false, true, false, false, false)

  /** Walking right on the ground: every frame the player moves by the move
      speed, lands back on the ground and keeps isSmall clear. */
  lemma {:induction false} WalkOnGround(p: Player, cameraX: real, canvasHeight: real, n: nat)
    requires p.w == PlayerSize && p.h == PlayerSize
    requires p.y == GroundY - PlayerSize && p.vy == 0.0 && !p.isSmall && p.dashTimer == 0
    requires p.x + MoveSpeed + PlayerSize > 0.0 && p.x + MoveSpeed * (n as real) < 600.0
    requires canvasHeight >= GroundY - PlayerSize
    ensures var o := Run(p, RightOnly, [Ground], cameraX, canvasHeight, n);
            o.player.x == p.x + MoveSpeed * (n as real) &&
            o.player.y == p.y && o.player.vy == 0.0 && !o.player.isSmall &&
            o.player.lives == p.lives && o.keys == RightOnly &&
            (n > 0 ==> o.player.onGround && o.player.jumpsLeft == MaxJumps)
    decreases n
  {
    if n > 0 {
      var o := PlayerStep(p, RightOnly, [Ground], cameraX, canvasHeight);
      var m := Move(p, RightOnly).0;
      assert m.x == p.x + MoveSpeed && m.y == p.y + Gravity && m.vy == Gravity;
      assert Lands(m.(onGround := false), Ground);
      var m0 := m.(onGround := false);
      assert [Ground][..0] == [] && Sweep(m0, []) == m0;
      assert Sweep(m0, [Ground]) == LandOn(m0, Ground);
      assert Landed(p, RightOnly, [Ground]) == Snap(m.(onGround := false), Ground);
      assert !InLowSpace(Landed(p, RightOnly, [Ground]).Box(), [Ground]);
      assert o.player == p.(x := p.x + MoveSpeed, vx := MoveSpeed, onGround := true, jumpsLeft := MaxJumps);
      WalkOnGround(o.player, o.cameraX, canvasHeight, n - 1);
    }
  }

  /** From x = 100 on the ground, fifty frames of 'd' end at x = 300, still
      standing. */
  lemma FiftyFramesRight(canvasHeight: real)
    requires canvasHeight >= GroundY - PlayerSize
    ensures var o := Run(InitialPlayer().(y := GroundY - PlayerSize), RightOnly, [Ground], 0.0, canvasHeight, 50);
            o.player.x == 300.0 && o.player.onGround
  {
    WalkOnGround(InitialPlayer().(y := GroundY - PlayerSize), 0.0, canvasHeight, 50);
  }
}
