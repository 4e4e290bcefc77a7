/** One frame of gameLoop without drawing: player step, enemy pass,
    conditional generation ahead of the camera, cleanup behind it; and the
    invariant that keeps the platform list non-empty and sorted, so that the
    loop's look-up of the last platform never fails. */
module Game {
  import opened Geometry
  import opened Entities
  import opened Sequences
  import opened PlayerPhysics
  import opened EnemyPhysics
  import opened Level

  datatype State = State(player: Player, cameraX: real, platforms: seq<Rect>, enemies: seq<Enemy>)

  /** The state the script builds before its first frame. */
  function InitialState(): State
  {
    State(InitialPlayer(), 0.0, [Ground], [])
  }

  /** The generation trigger: the last platform's left edge is left of the
      camera's right edge. */
  predicate NeedsSegment(platforms: seq<Rect>, cameraX: real, canvasWidth: real)
    requires |platforms| > 0
  {
    Last(platforms).x < cameraX + canvasWidth
  }

  function Generate(s: State, canvasWidth: real, ds: seq<Draw>): State
    requires |s.platforms| > 0 && |ds| == SegmentSize
  {
    if NeedsSegment(s.platforms, s.cameraX, canvasWidth) then
      var b := Segment(Last(s.platforms).x + SegmentOffset, ds);
      s.(platforms := s.platforms + b.platforms, enemies := s.enemies + b.enemies)
    else
      s
  }

  function Cleanup(s: State): State
  {
    s.(platforms := Retain(s.platforms, RightEdge, s.cameraX - CleanupMargin),
       enemies := Retain(s.enemies, EnemyRightEdge, s.cameraX - CleanupMargin))
  }

  /** The state after updatePlayer and updateEnemies. */
  function Simulate(s: State, k: Keys, canvasHeight: real): (State, Keys)
  {
    var o := PlayerStep(s.player, k, s.platforms, s.cameraX, canvasHeight);
    var t := Pass(o.player, s.enemies, o.cameraX);
    (State(t.player, o.cameraX, s.platforms, t.survivors), o.keys)
  }

  /** One frame, with the keys as the frame leaves them. */
  function Tick(s: State, k: Keys, canvasWidth: real, canvasHeight: real, ds: seq<Draw>): (State, Keys)
    requires |s.platforms| > 0 && |ds| == SegmentSize
  {
    var (mid, k') := Simulate(s, k, canvasHeight);
    (Cleanup(Generate(mid, canvasWidth, ds)), k')
  }

  /** The frame invariant: platforms non-empty, sorted by x and of positive
      width, the last one not far behind the camera, the player no further
      ahead of the camera than the lead, and the player's counters in range. */
  ghost predicate Good(s: State)
  {
    |s.platforms| > 0 &&
    SortedByX(s.platforms) &&
    (forall i :: 0 <= i < |s.platforms| ==> s.platforms[i].w > 0.0) &&
    Last(s.platforms).x >= s.cameraX - CameraLead &&
    s.player.x <= s.cameraX + CameraLead &&
    ValidPlayer(s.player)
  }

  lemma InitialGood()
    ensures Good(InitialState())
  {
  }

  /** Generation appends and removes nothing; it appends exactly three
      platforms, the first 200 right of the last platform's left edge, and
      at most three enemies, iff the trigger holds. */
  lemma GenerateAppends(s: State, canvasWidth: real, ds: seq<Draw>)
    requires |s.platforms| > 0 && |ds| == SegmentSize && ValidDraws(ds)
    ensures var g := Generate(s, canvasWidth, ds);
            g.player == s.player && g.cameraX == s.cameraX &&
            |g.platforms| >= |s.platforms| && g.platforms[..|s.platforms|] == s.platforms &&
            |g.enemies| >= |s.enemies| && g.enemies[..|s.enemies|] == s.enemies
    ensures var g := Generate(s, canvasWidth, ds);
            NeedsSegment(s.platforms, s.cameraX, canvasWidth) <==> |g.platforms| == |s.platforms| + SegmentSize
    ensures var g := Generate(s, canvasWidth, ds);
            NeedsSegment(s.platforms, s.cameraX, canvasWidth) ==>
              g.platforms[|s.platforms|].x == Last(s.platforms).x + SegmentOffset &&
              |g.enemies| <= |s.enemies| + SegmentSize
    ensures !NeedsSegment(s.platforms, s.cameraX, canvasWidth) ==> Generate(s, canvasWidth, ds) == s
  {
    var startX := Last(s.platforms).x + SegmentOffset;
    BuildShape(startX, ds, SegmentSize);
    BuildEnemyCount(startX, ds, SegmentSize);
  }

  /** After the player step and the enemy pass the camera has moved right by
      at most the dash speed, the player is at most the lead ahead of it,
      and the counters are in range. */
  lemma SimulateBounds(s: State, k: Keys, canvasHeight: real)
    requires Good(s)
    ensures var mid := Simulate(s, k, canvasHeight).0;
            mid.platforms == s.platforms &&
            mid.cameraX <= s.cameraX + DashSpeed &&
            mid.player.x <= mid.cameraX + CameraLead &&
            ValidPlayer(mid.player)
  {
    var o := PlayerStep(s.player, k, s.platforms, s.cameraX, canvasHeight);
    FallAndAdvance(s.player, k, s.platforms, s.cameraX, canvasHeight);
    StepKeepsPlayerValid(s.player, k, s.platforms, s.cameraX, canvasHeight);
    PassPlayer(o.player, s.enemies, o.cameraX, 0);
  }

  /** Appending a segment right of the last platform keeps the list sorted,
      and its new last platform is at least 560 right of the old one. */
  lemma GenerateKeepsOrder(s: State, canvasWidth: real, ds: seq<Draw>)
    requires |s.platforms| > 0 && SortedByX(s.platforms) && |ds| == SegmentSize && ValidDraws(ds)
    requires forall i :: 0 <= i < |s.platforms| ==> s.platforms[i].w > 0.0
    ensures var g := Generate(s, canvasWidth, ds);
            |g.platforms| > 0 && SortedByX(g.platforms) &&
            (forall i :: 0 <= i < |g.platforms| ==> g.platforms[i].w > 0.0) &&
            (NeedsSegment(s.platforms, s.cameraX, canvasWidth) ==>
               Last(g.platforms).x >= Last(s.platforms).x + 560.0) &&
            (!NeedsSegment(s.platforms, s.cameraX, canvasWidth) ==> Last(g.platforms) == Last(s.platforms))
  {
    if NeedsSegment(s.platforms, s.cameraX, canvasWidth) {
      var last := Last(s.platforms);
      var startX := last.x + SegmentOffset;
      var b := Segment(startX, ds).platforms;
      assert |b| == 3 && b[0].x == startX && forall i :: 0 <= i < 3 ==> b[i].w > 0.0 by {
        BuildShape(startX, ds, SegmentSize);
      }
      assert b[2].x >= startX + 360.0 by {
        BuildSpacing(startX, ds, SegmentSize);
      }
      assert SortedByX(b) by {
        BuildSorted(startX, ds, SegmentSize);
      }
      var ps := s.platforms + b;
      var n := |s.platforms|;
      forall i, j | 0 <= i < j < |ps|
        ensures ps[i].x < ps[j].x
      {
        if j < n {
          assert ps[i] == s.platforms[i] && ps[j] == s.platforms[j];
        } else if i < n {
          assert ps[i] == s.platforms[i] && ps[j] == b[j - n];
          assert s.platforms[i].x <= last.x by {
            if i < n - 1 {
              assert s.platforms[i].x < s.platforms[n - 1].x;
            }
          }
          assert b[0].x <= b[j - n].x;
        } else {
          assert ps[i] == b[i - n] && ps[j] == b[j - n];
        }
      }
      assert Last(ps) == b[2];
      assert Generate(s, canvasWidth, ds).platforms == ps;
    }
  }

  /** Cleanup keeps the invariant when the last platform is not far behind
      the camera. */
  lemma CleanupKeepsGood(g: State)
    requires |g.platforms| > 0 && SortedByX(g.platforms)
    requires forall i :: 0 <= i < |g.platforms| ==> g.platforms[i].w > 0.0
    requires Last(g.platforms).x >= g.cameraX - CameraLead
    requires g.player.x <= g.cameraX + CameraLead && ValidPlayer(g.player)
    ensures Good(Cleanup(g))
  {
    var limit := g.cameraX - CleanupMargin;
    var ps := g.platforms;
    var kept := Retain(ps, RightEdge, limit);
    assert |kept| > 0 && Last(kept) == Last(ps) by {
      assert ps[|ps| - 1].w > 0.0;
      RetainKeepsLast(ps, RightEdge, limit);
    }
    assert SortedByX(kept) by {
      RetainSorted(ps, limit);
    }
    assert forall i :: 0 <= i < |kept| ==> kept[i].w > 0.0 by {
      RetainKeepsWidths(ps, limit);
    }
    var c := Cleanup(g);
    assert c.platforms == kept && c.player == g.player && c.cameraX == g.cameraX;
  }

  /** Every frame keeps the invariant, for any canvas width that is not
      negative and any random draws in [0, 1). */
  lemma TickPreservesGood(s: State, k: Keys, canvasWidth: real, canvasHeight: real, ds: seq<Draw>)
    requires Good(s) && canvasWidth >= 0.0 && |ds| == SegmentSize && ValidDraws(ds)
    ensures Good(Tick(s, k, canvasWidth, canvasHeight, ds).0)
  {
    var mid := Simulate(s, k, canvasHeight).0;
    SimulateBounds(s, k, canvasHeight);
    var g := Generate(mid, canvasWidth, ds);
    GenerateKeepsOrder(mid, canvasWidth, ds);
    GenerateAppends(mid, canvasWidth, ds);
    assert g.cameraX == mid.cameraX && g.player == mid.player;
    CleanupKeepsGood(g);
    assert Tick(s, k, canvasWidth, canvasHeight, ds).0 == Cleanup(g);
  }
}
