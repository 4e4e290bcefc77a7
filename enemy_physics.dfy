/** updateEnemies as a function: the loop runs from the last enemy down to
    the first, moves each one left by its speed, and removes it on contact
    with the player, either as a stomp (the player is falling) or as a hit. */
module EnemyPhysics {
  import opened Geometry
  import opened Entities
  import opened Sequences

  function Advance(e: Enemy): Enemy
  {
    e.(x := e.x - e.speed)
  }

  /** Every enemy of the list, moved. */
  function Advanced(es: seq<Enemy>): seq<Enemy>
  {
    seq(|es|, j requires 0 <= j < |es| => Advance(es[j]))
  }

  /** The player and the surviving enemies after part of the loop, with the
      number of stomps and hits so far. */
  datatype Tally = Tally(player: Player, survivors: seq<Enemy>, stomps: nat, hits: nat)

  /** One iteration of the loop on an enemy already moved: kept when it
      misses the player, otherwise removed as a stomp (the player is
      falling) or a hit. */
  function Handle(t: Tally, e: Enemy, cameraX: real): Tally
  {
    if !Intersects(t.player.Box(), e.Box()) then
      t.(survivors := [e] + t.survivors)
    else if t.player.vy > 0.0 then
      t.(player := t.player.(vy := StompBounce, score := t.player.score + StompReward),
         stomps := t.stomps + 1)
    else
      t.(player := Reset(t.player.(lives := t.player.lives - 1), cameraX), hits := t.hits + 1)
  }

  /** The loop after it has handled indices |es|-1 down to i; the survivors
      are those of es[i..], moved, in their original order. */
  function PassFrom(p: Player, es: seq<Enemy>, cameraX: real, i: nat): Tally
    requires i <= |es|
    decreases |es| - i
  {
    if i == |es| then Tally(p, [], 0, 0)
    else Handle(PassFrom(p, es, cameraX, i + 1), Advance(es[i]), cameraX)
  }

  function Pass(p: Player, es: seq<Enemy>, cameraX: real): Tally
  {
    PassFrom(p, es, cameraX, 0)
  }

  lemma AdvancedCons(es: seq<Enemy>, i: nat)
    requires i < |es|
    ensures Advanced(es[i..]) == [Advance(es[i])] + Advanced(es[i + 1..])
  {
    assert es[i..][1..] == es[i + 1..];
  }

  /** The enemies of the list that miss the given box, in their order. */
  function Misses(box: Rect, es: seq<Enemy>): seq<Enemy>
  {
    if es == [] then []
    else (if Intersects(box, es[0].Box()) then [] else [es[0]]) + Misses(box, es[1..])
  }

  /** Misses keeps exactly the enemies that miss the box. */
  lemma {:induction false} MissesMembers(box: Rect, es: seq<Enemy>)
    ensures forall e :: e in Misses(box, es) <==> e in es && !Intersects(box, e.Box())
  {
    if es != [] {
      MissesMembers(box, es[1..]);
      assert es == [es[0]] + es[1..];
    }
  }

  /** Score and lives account for every removal: 100 points per stomp, one
      life per hit, and every enemy either survives or was stomped or hit. */
  lemma {:induction false} PassAccounting(p: Player, es: seq<Enemy>, cameraX: real, i: nat)
    requires i <= |es|
    ensures var t := PassFrom(p, es, cameraX, i);
            t.player.score == p.score + StompReward * t.stomps &&
            t.player.lives == p.lives - t.hits &&
            |t.survivors| + t.stomps + t.hits == |es| - i
    decreases |es| - i
  {
    if i < |es| {
      PassAccounting(p, es, cameraX, i + 1);
    }
  }

  /** The survivors are moved enemies, in their original relative order. */
  lemma {:induction false} PassSurvivorsInOrder(p: Player, es: seq<Enemy>, cameraX: real, i: nat)
    requires i <= |es|
    ensures IsSubsequence(PassFrom(p, es, cameraX, i).survivors, Advanced(es[i..]))
    decreases |es| - i
  {
    if i < |es| {
      var t := PassFrom(p, es, cameraX, i + 1);
      PassSurvivorsInOrder(p, es, cameraX, i + 1);
      AdvancedCons(es, i);
      var e := Advance(es[i]);
      var all := [e] + Advanced(es[i + 1..]);
      assert all[0] == e && all[1..] == Advanced(es[i + 1..]);
      if !Intersects(t.player.Box(), e.Box()) {
        assert ([e] + t.survivors)[1..] == t.survivors;
      }
    }
  }

  /** When no moved enemy touches the player, the pass only moves them. */
  lemma {:induction false} PassNoContact(p: Player, es: seq<Enemy>, cameraX: real, i: nat)
    requires i <= |es|
    requires forall j :: i <= j < |es| ==> !Intersects(p.Box(), Advance(es[j]).Box())
    ensures PassFrom(p, es, cameraX, i) == Tally(p, Advanced(es[i..]), 0, 0)
    decreases |es| - i
  {
    if i < |es| {
      PassNoContact(p, es, cameraX, i + 1);
      AdvancedCons(es, i);
    } else {
      assert Advanced(es[i..]) == [];
    }
  }

  /** What the pass does to the player. Size, dash and ground state are never
      touched. At most one stomp happens per pass, because a stomp leaves the
      player rising and a hit leaves it at rest, so every later contact is a
      hit. Without a hit the player keeps its place and jumps (a stomp only
      bounces it); after a hit it is at the respawn point at rest. */
  lemma {:induction false} PassPlayer(p: Player, es: seq<Enemy>, cameraX: real, i: nat)
    requires i <= |es|
    ensures var t := PassFrom(p, es, cameraX, i);
            t.player.w == p.w && t.player.h == p.h && t.player.isSmall == p.isSmall &&
            t.player.dashTimer == p.dashTimer && t.player.onGround == p.onGround
    ensures var t := PassFrom(p, es, cameraX, i);
            t.stomps <= 1 && (t.stomps + t.hits > 0 ==> t.player.vy <= 0.0)
    ensures var t := PassFrom(p, es, cameraX, i);
            t.stomps + t.hits == 0 ==> t.player == p
    ensures var t := PassFrom(p, es, cameraX, i);
            t.hits == 0 && t.stomps == 1 ==>
              t.player == p.(vy := StompBounce, score := p.score + StompReward)
    ensures var t := PassFrom(p, es, cameraX, i);
            t.hits > 0 ==>
              t.player.x == cameraX + RespawnOffset && t.player.y == RespawnY &&
              t.player.vx == 0.0 && t.player.vy == 0.0 && t.player.jumpsLeft == MaxJumps
    decreases |es| - i
  {
    if i < |es| {
      PassPlayer(p, es, cameraX, i + 1);
    }
  }

  /** A pass without hits keeps exactly the moved enemies that miss the
      player's box, in their order, and leaves the box where it was (a
      stomp only changes the vertical speed and the score). */
  lemma {:induction false} PassWithoutHits(p: Player, es: seq<Enemy>, cameraX: real, i: nat)
    requires i <= |es|
    ensures var t := PassFrom(p, es, cameraX, i);
            t.hits == 0 ==> t.survivors == Misses(p.Box(), Advanced(es[i..])) && t.player.Box() == p.Box()
    decreases |es| - i
  {
    if i < |es| {
      PassWithoutHits(p, es, cameraX, i + 1);
      AdvancedCons(es, i);
      var e := Advance(es[i]);
      var rest := Advanced(es[i + 1..]);
      assert ([e] + rest)[0] == e && ([e] + rest)[1..] == rest;
    } else {
      assert Advanced(es[i..]) == [];
    }
  }

  /** An enemy met by a player waiting at the respawn point at rest is
      kept iff it misses the respawn box, and the player stays there. */
  lemma HandleAtRespawn(t: Tally, e: Enemy, cameraX: real)
    requires t.player.x == cameraX + RespawnOffset && t.player.y == RespawnY && t.player.vy == 0.0
    ensures var h := Handle(t, e, cameraX);
            h.hits >= t.hits && h.player.Box() == t.player.Box() && h.player.vy == 0.0 &&
            h.survivors == (if Intersects(t.player.Box(), e.Box()) then [] else [e]) + t.survivors
  {
  }

  /** Once a hit has happened at index j or above, the player waits at the
      respawn point at rest (PassPlayer), so every later contact is tested
      against the respawn box and is a hit too: the enemies of es[i..j] that
      survive are exactly the moved ones that miss that box. */
  lemma {:induction false} PassAfterHit(p: Player, es: seq<Enemy>, cameraX: real, i: nat, j: nat)
    requires i <= j <= |es| && PassFrom(p, es, cameraX, j).hits > 0
    ensures var t := PassFrom(p, es, cameraX, i);
            var respawn := Rect(cameraX + RespawnOffset, RespawnY, p.w, p.h);
            t.hits > 0 &&
            t.survivors == Misses(respawn, Advanced(es[i..j])) + PassFrom(p, es, cameraX, j).survivors
    decreases j - i
  {
    var respawn := Rect(cameraX + RespawnOffset, RespawnY, p.w, p.h);
    if i < j {
      var head := if Intersects(respawn, Advance(es[i]).Box()) then [] else [Advance(es[i])];
      var later := PassFrom(p, es, cameraX, j).survivors;
      var mid := Misses(respawn, Advanced(es[i + 1..j]));
      assert PassFrom(p, es, cameraX, i + 1).survivors == mid + later by {
        PassAfterHit(p, es, cameraX, i + 1, j);
      }
      assert PassFrom(p, es, cameraX, i).hits > 0 &&
             PassFrom(p, es, cameraX, i).survivors == head + (mid + later) by {
        PassAfterHit(p, es, cameraX, i + 1, j);
        AfterHitStep(p, es, cameraX, i);
      }
      assert Misses(respawn, Advanced(es[i..j])) == head + mid by {
        MissesAdvancedStep(respawn, es, i, j);
      }
      assert (head + mid) + later == head + (mid + later);
    } else {
      assert Advanced(es[i..j]) == [];
    }
  }

  /** One step of the pass once a hit has happened later in the list: the
      player waits at the respawn point, so enemy i is kept iff it misses
      the respawn box. */
  lemma AfterHitStep(p: Player, es: seq<Enemy>, cameraX: real, i: nat)
    requires i < |es| && PassFrom(p, es, cameraX, i + 1).hits > 0
    ensures var respawn := Rect(cameraX + RespawnOffset, RespawnY, p.w, p.h);
            var e := Advance(es[i]);
            PassFrom(p, es, cameraX, i).hits > 0 &&
            PassFrom(p, es, cameraX, i).survivors ==
              (if Intersects(respawn, e.Box()) then [] else [e]) + PassFrom(p, es, cameraX, i + 1).survivors
  {
    var t := PassFrom(p, es, cameraX, i + 1);
    assert t.player.x == cameraX + RespawnOffset && t.player.y == RespawnY &&
           t.player.w == p.w && t.player.h == p.h && t.player.vy == 0.0 by {
      PassPlayer(p, es, cameraX, i + 1);
    }
    assert PassFrom(p, es, cameraX, i) == Handle(t, Advance(es[i]), cameraX);
    HandleAtRespawn(t, Advance(es[i]), cameraX);
  }

  lemma MissesAdvancedStep(box: Rect, es: seq<Enemy>, i: nat, j: nat)
    requires i < j <= |es|
    ensures var e := Advance(es[i]);
            Misses(box, Advanced(es[i..j])) ==
              (if Intersects(box, e.Box()) then [] else [e]) + Misses(box, Advanced(es[i + 1..j]))
  {
    var e := Advance(es[i]);
    var rest := Advanced(es[i + 1..j]);
    assert es[i..j][0] == es[i] && es[i..j][1..] == es[i + 1..j];
    assert es[i..j][0..] == es[i..j];
    AdvancedCons(es[i..j], 0);
    assert ([e] + rest)[0] == e && ([e] + rest)[1..] == rest;
  }

  /** One enemy: moved and kept when it misses the player; removed with a
      bounce and 100 points when the player falls onto it; removed with a
      life lost and a respawn otherwise. */
  lemma SingleEnemy(p: Player, e: Enemy, cameraX: real)
    ensures var t := Pass(p, [e], cameraX);
            var moved := Advance(e);
            (!Intersects(p.Box(), moved.Box()) ==> t == Tally(p, [moved], 0, 0)) &&
            (Intersects(p.Box(), moved.Box()) && p.vy > 0.0 ==>
               t == Tally(p.(vy := StompBounce, score := p.score + StompReward), [], 1, 0)) &&
            (Intersects(p.Box(), moved.Box()) && p.vy <= 0.0 ==>
               t == Tally(Reset(p.(lives := p.lives - 1), cameraX), [], 0, 1))
  {
    assert PassFrom(p, [e], cameraX, 1) == Tally(p, [], 0, 0);
  }

  /** Two enemies both touching a falling player: the later one in the list
      is handled first and stomped; the bounce leaves the player rising, so
      the earlier one counts as a hit. */
  lemma StompThenHit(p: Player, near: Enemy, far: Enemy, cameraX: real)
    requires p.vy > 0.0
    requires Intersects(p.Box(), Advance(near).Box()) && Intersects(p.Box(), Advance(far).Box())
    ensures Pass(p, [near, far], cameraX) ==
              Tally(Reset(p.(vy := StompBounce, score := p.score + StompReward, lives := p.lives - 1), cameraX),
                    [], 1, 1)
  {
    var es := [near, far];
    assert PassFrom(p, es, cameraX, 2) == Tally(p, [], 0, 0);
    var t1 := PassFrom(p, es, cameraX, 1);
    assert t1 == Tally(p.(vy := StompBounce, score := p.score + StompReward), [], 1, 0);
  }
}
