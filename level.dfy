/** The level generator (generateSegment) and the world cleanup
    (cleanupWorld) as functions on the platform and enemy lists. */
module Level {
  import opened Geometry
  import opened Entities
  import opened Sequences

  /** Platforms per segment. */
  const SegmentSize: nat := 3
  const PlatformHeight: real := 20.0
  const EnemySize: real := 30.0
  /** An enemy is placed when its draw is below this. */
  const EnemyChance: real := 0.6
  /** A new segment starts this far right of the last platform's left edge. */
  const SegmentOffset: real := 200.0
  /** Entities whose right edge is not right of cameraX minus this go. */
  const CleanupMargin: real := 200.0

  /** The values one iteration of generateSegment takes from the random
      source, in the order it takes them: width, height offset, the enemy
      coin, the enemy speed (taken only when the coin places an enemy) and
      the gap to the next platform. */
  datatype Draw = Draw(width: real, y: real, coin: real, speed: real, gap: real)

  predicate Unit(u: real)
  {
    0.0 <= u < 1.0
  }

  predicate ValidDraw(d: Draw)
  {
    Unit(d.width) && Unit(d.y) && Unit(d.coin) && Unit(d.speed) && Unit(d.gap)
  }

  predicate ValidDraws(ds: seq<Draw>)
  {
    forall i :: 0 <= i < |ds| ==> ValidDraw(ds[i])
  }

  /** Width 100 + 120u, height 20, top 260 + 120u. */
  function PlatformAt(x: real, d: Draw): Rect
  {
    Rect(x, 260.0 + d.y * 120.0, 100.0 + d.width * 120.0, PlatformHeight)
  }

  /** The enemy's left edge sits at the platform's midpoint, 30 above its
      top; speed 1.5 + u. */
  function EnemyAbove(q: Rect, d: Draw): Enemy
  {
    Enemy(q.x + q.w / 2.0, q.y - 30.0, EnemySize, EnemySize, 1.5 + d.speed)
  }

  /** The running x after a platform: its right edge plus 80 + 120u. */
  function NextX(q: Rect, d: Draw): real
  {
    q.x + q.w + 80.0 + d.gap * 120.0
  }

  /** What the first n iterations of the generator loop appended, and the
      running x after them. */
  datatype Build = Build(platforms: seq<Rect>, enemies: seq<Enemy>, nextX: real)

  function BuildUpTo(startX: real, ds: seq<Draw>, n: nat): Build
    requires n <= |ds|
    decreases n
  {
    if n == 0 then Build([], [], startX)
    else
      var b := BuildUpTo(startX, ds, n - 1);
      var d := ds[n - 1];
      var q := PlatformAt(b.nextX, d);
      Build(b.platforms + [q],
            b.enemies + (if d.coin < EnemyChance then [EnemyAbove(q, d)] else []),
            NextX(q, d))
  }

  /** generateSegment(startX). */
  function Segment(startX: real, ds: seq<Draw>): Build
    requires |ds| == SegmentSize
  {
    BuildUpTo(startX, ds, SegmentSize)
  }

  /** How many of the first n draws place an enemy. */
  function RiderCount(ds: seq<Draw>, n: nat): (c: nat)
    requires n <= |ds|
    ensures c <= n
    decreases n
  {
    if n == 0 then 0
    else RiderCount(ds, n - 1) + (if ds[n - 1].coin < EnemyChance then 1 else 0)
  }

  predicate SortedByX(ps: seq<Rect>)
  {
    forall i, j :: 0 <= i < j < |ps| ==> ps[i].x < ps[j].x
  }

  /** The platforms of a segment: one per iteration, the first at startX,
      each 20 high, 100 to 220 wide and with its top in [260, 380). */
  lemma {:induction false} BuildShape(startX: real, ds: seq<Draw>, n: nat)
    requires n <= |ds| && ValidDraws(ds)
    ensures var b := BuildUpTo(startX, ds, n);
            |b.platforms| == n &&
            (forall i :: 0 <= i < n ==>
               b.platforms[i].h == PlatformHeight &&
               100.0 <= b.platforms[i].w < 220.0 &&
               260.0 <= b.platforms[i].y < 380.0) &&
            (n > 0 ==> b.platforms[0].x == startX)
    decreases n
  {
    if n > 0 {
      BuildShape(startX, ds, n - 1);
      assert ValidDraw(ds[n - 1]);
    }
  }

  /** Each platform begins 80 to 200 right of the previous one's right edge,
      so the x of the i-th is at least startX + 180i, and the running x is
      at least 180 right of every platform's x. */
  lemma {:induction false} BuildSpacing(startX: real, ds: seq<Draw>, n: nat)
    requires n <= |ds| && ValidDraws(ds)
    ensures var b := BuildUpTo(startX, ds, n);
            |b.platforms| == n &&
            (forall i :: 0 <= i < n ==>
               b.platforms[i].x >= startX + 180.0 * (i as real) &&
               b.platforms[i].x + 180.0 <= b.nextX) &&
            (forall i :: 0 < i < n ==>
               80.0 <= b.platforms[i].x - RightEdge(b.platforms[i - 1]) < 200.0) &&
            b.nextX >= startX + 180.0 * (n as real)
    decreases n
  {
    if n > 0 {
      BuildSpacing(startX, ds, n - 1);
      BuildShape(startX, ds, n);
      var b := BuildUpTo(startX, ds, n - 1);
      assert ValidDraw(ds[n - 1]);
      if n > 1 {
        assert b.platforms[n - 2].x + 180.0 <= b.nextX;
      }
    }
  }

  /** The platforms of a segment are sorted by x. */
  lemma {:induction false} BuildSorted(startX: real, ds: seq<Draw>, n: nat)
    requires n <= |ds| && ValidDraws(ds)
    ensures SortedByX(BuildUpTo(startX, ds, n).platforms)
    decreases n
  {
    if n > 0 {
      BuildSorted(startX, ds, n - 1);
      BuildSpacing(startX, ds, n - 1);
      BuildShape(startX, ds, n - 1);
      var b := BuildUpTo(startX, ds, n - 1);
      var ps := BuildUpTo(startX, ds, n).platforms;
      assert ps == b.platforms + [PlatformAt(b.nextX, ds[n - 1])];
      forall i, j | 0 <= i < j < n
        ensures ps[i].x < ps[j].x
      {
        assert ps[i] == b.platforms[i];
        if j < n - 1 {
          assert ps[j] == b.platforms[j];
        }
      }
    }
  }

  /** One step of the generator loop: the new platform goes at the end and
      at most its own enemy is added. */
  lemma BuildStep(startX: real, ds: seq<Draw>, n: nat)
    requires 0 < n <= |ds|
    ensures var b := BuildUpTo(startX, ds, n - 1);
            var b' := BuildUpTo(startX, ds, n);
            var q := PlatformAt(b.nextX, ds[n - 1]);
            b'.platforms == b.platforms + [q] &&
            b'.enemies == b.enemies + (if ds[n - 1].coin < EnemyChance then [EnemyAbove(q, ds[n - 1])] else [])
  {
  }

  /** A segment has one enemy per draw whose coin is below 0.6. */
  lemma {:induction false} BuildEnemyCount(startX: real, ds: seq<Draw>, n: nat)
    requires n <= |ds|
    ensures |BuildUpTo(startX, ds, n).enemies| == RiderCount(ds, n)
    decreases n
  {
    if n > 0 {
      BuildEnemyCount(startX, ds, n - 1);
    }
  }

  /** Every enemy of a segment is 30 by 30 with speed in [1.5, 2.5); its
      left edge is on the midpoint of the platform of its iteration, whose
      coin placed it, and its top 30 above that platform. */
  lemma {:induction false} BuildEnemiesRide(startX: real, ds: seq<Draw>, n: nat)
    requires n <= |ds| && ValidDraws(ds)
    ensures var b := BuildUpTo(startX, ds, n);
            |b.platforms| == n &&
            forall e :: e in b.enemies ==>
              e.w == EnemySize && e.h == EnemySize && 1.5 <= e.speed < 2.5 &&
              exists i :: 0 <= i < n && ds[i].coin < EnemyChance && e == EnemyAbove(b.platforms[i], ds[i])
    decreases n
  {
    if n > 0 {
      BuildEnemiesRide(startX, ds, n - 1);
      var b := BuildUpTo(startX, ds, n - 1);
      var b' := BuildUpTo(startX, ds, n);
      var d := ds[n - 1];
      var q := PlatformAt(b.nextX, d);
      var added := if d.coin < EnemyChance then [EnemyAbove(q, d)] else [];
      assert b'.platforms == b.platforms + [q] && b'.enemies == b.enemies + added by {
        BuildStep(startX, ds, n);
      }
      assert ValidDraw(d);
      forall e | e in b'.enemies
        ensures e.w == EnemySize && e.h == EnemySize && 1.5 <= e.speed < 2.5
        ensures exists i :: 0 <= i < n && ds[i].coin < EnemyChance && e == EnemyAbove(b'.platforms[i], ds[i])
      {
        if e in b.enemies {
          var i :| 0 <= i < n - 1 && ds[i].coin < EnemyChance && e == EnemyAbove(b.platforms[i], ds[i]);
          assert b'.platforms[i] == b.platforms[i];
        } else {
          assert e in added;
          assert b'.platforms[n - 1] == q;
        }
      }
    }
  }

  /** Every platform of a segment whose coin is below 0.6 got its enemy. */
  lemma {:induction false} BuildEnemiesPlaced(startX: real, ds: seq<Draw>, n: nat)
    requires n <= |ds|
    ensures var b := BuildUpTo(startX, ds, n);
            |b.platforms| == n &&
            forall i :: 0 <= i < n && ds[i].coin < EnemyChance ==> EnemyAbove(b.platforms[i], ds[i]) in b.enemies
    decreases n
  {
    if n > 0 {
      BuildEnemiesPlaced(startX, ds, n - 1);
      BuildStep(startX, ds, n);
      var b := BuildUpTo(startX, ds, n - 1);
      var b' := BuildUpTo(startX, ds, n);
      forall i | 0 <= i < n && ds[i].coin < EnemyChance
        ensures EnemyAbove(b'.platforms[i], ds[i]) in b'.enemies
      {
        if i < n - 1 {
          assert b'.platforms[i] == b.platforms[i];
        }
      }
    }
  }

  // ---------------------------------------------------------------------
  // Cleanup

  /** Array.prototype.filter keeping the entities whose right edge lies
      strictly right of the limit: exactly those are kept, in their order. */
  function Retain<T(==,!new)>(s: seq<T>, right: T -> real, limit: real): (r: seq<T>)
    ensures forall x :: x in r ==> x in s && right(x) > limit
    ensures forall x :: x in s && right(x) > limit ==> x in r
    ensures IsSubsequence(r, s)
    ensures forall x {:trigger multiset(r)[x]} :: multiset(r)[x] == if right(x) > limit then multiset(s)[x] else 0
  {
    if s == [] then []
    else
      assert s == [s[0]] + s[1..];
      if right(s[0]) > limit then
        var rest := Retain(s[1..], right, limit);
        assert ([s[0]] + rest)[1..] == rest;
        [s[0]] + rest
      else
        Retain(s[1..], right, limit)
  }

  function EnemyRightEdge(e: Enemy): real
  {
    e.x + e.w
  }

  /** Cleaning twice removes nothing more. */
  lemma {:induction false} RetainIdempotent<T(!new)>(s: seq<T>, right: T -> real, limit: real)
    ensures Retain(Retain(s, right, limit), right, limit) == Retain(s, right, limit)
  {
    if s != [] {
      RetainIdempotent(s[1..], right, limit);
      var rest := Retain(s[1..], right, limit);
      if right(s[0]) > limit {
        assert ([s[0]] + rest)[0] == s[0] && ([s[0]] + rest)[1..] == rest;
      }
    }
  }

  /** The last entity survives when it is right of the limit, and stays
      last. */
  lemma {:induction false} RetainKeepsLast<T(!new)>(s: seq<T>, right: T -> real, limit: real)
    requires |s| > 0 && right(Last(s)) > limit
    ensures |Retain(s, right, limit)| > 0 && Last(Retain(s, right, limit)) == Last(s)
  {
    if |s| > 1 {
      RetainKeepsLast(s[1..], right, limit);
    }
  }

  /** Cleanup keeps platforms sorted by x. */
  lemma {:induction false} RetainSorted(ps: seq<Rect>, limit: real)
    requires SortedByX(ps)
    ensures SortedByX(Retain(ps, RightEdge, limit))
  {
    if ps != [] {
      RetainSorted(ps[1..], limit);
      var rest := Retain(ps[1..], RightEdge, limit);
      forall q | q in rest
        ensures ps[0].x < q.x
      {
        var j :| 0 <= j < |ps[1..]| && ps[1..][j] == q;
        assert ps[j + 1] == q;
      }
    }
  }

  /** Cleanup keeps only platforms of the list, so positive widths stay
      positive. */
  lemma RetainKeepsWidths(ps: seq<Rect>, limit: real)
    requires forall i :: 0 <= i < |ps| ==> ps[i].w > 0.0
    ensures forall i :: 0 <= i < |Retain(ps, RightEdge, limit)| ==> Retain(ps, RightEdge, limit)[i].w > 0.0
  {
    var kept := Retain(ps, RightEdge, limit);
    forall i | 0 <= i < |kept|
      ensures kept[i].w > 0.0
    {
      assert kept[i] in ps;
      var j :| 0 <= j < |ps| && ps[j] == kept[i];
    }
  }

  /** The boundary: a right edge exactly at cameraX - 200 is removed, one
      unit further right it is kept. */
  lemma CleanupBoundary(ps: seq<Rect>, cameraX: real, q: Rect)
    ensures RightEdge(q) == cameraX - CleanupMargin ==> q !in Retain(ps, RightEdge, cameraX - CleanupMargin)
    ensures RightEdge(q) == cameraX - CleanupMargin + 1.0 && q in ps ==>
              q in Retain(ps, RightEdge, cameraX - CleanupMargin)
  {
  }
}
