/** The shooting-star pool shared by both canvas components: each frame may add
    one star while the pool is below its cap, then every star moves by its
    velocity, fades by a fixed factor and is dropped once it is too faint or
    has fallen below the canvas. */
module ShootingStars {

  datatype ShootingStar = ShootingStar(
    x: real, y: real,
    vx: real, vy: real,
    length: real,
    opacity: real,
    active: bool
  )

  /** Opacity under which a star is retired. */
  const OpacityFloor: real := 0.01
  /** How far below the bottom edge a star may fall before it is retired. */
  const BottomMargin: real := 50.0

  /** One frame of motion: `x += vx; y += vy; opacity *= decay`. */
  function Moved(s: ShootingStar, decay: real): (m: ShootingStar)
    ensures m.x == s.x + s.vx && m.y == s.y + s.vy && m.opacity == s.opacity * decay
    ensures m.vx == s.vx && m.vy == s.vy && m.length == s.length && m.active == s.active
  {
    s.(x := s.x + s.vx, y := s.y + s.vy, opacity := s.opacity * decay)
  }

  /** `star.opacity < 0.01 || star.y > canvas.height + 50`. */
  predicate Retired(s: ShootingStar, height: real) {
    s.opacity < OpacityFloor || s.y > height + BottomMargin
  }

  /** The filter callback on a live star: move it, then clear `active` if it is retired. */
  function Stepped(s: ShootingStar, decay: real, height: real): ShootingStar {
    var m := Moved(s, decay);
    m.(active := !Retired(m, height))
  }

  /** Whether the filter keeps the star: it was active and is still active after its step. */
  predicate Survives(s: ShootingStar, decay: real, height: real) {
    s.active && Stepped(s, decay, height).active
  }

  /** The pool after `shootingStars.filter(...)`: inactive stars are dropped
      unseen, live stars are stepped and kept when still active. */
  function Advanced(pool: seq<ShootingStar>, decay: real, height: real): seq<ShootingStar> {
    if pool == [] then []
    else (if Survives(pool[0], decay, height) then [Stepped(pool[0], decay, height)] else [])
         + Advanced(pool[1..], decay, height)
  }

  lemma {:induction false} AdvancedAppend(a: seq<ShootingStar>, b: seq<ShootingStar>, decay: real, height: real)
    ensures Advanced(a + b, decay, height) == Advanced(a, decay, height) + Advanced(b, decay, height)
    decreases |a|
  {
    if a != [] {
      assert (a + b)[1..] == a[1..] + b;
      AdvancedAppend(a[1..], b, decay, height);
    } else {
      assert a + b == b;
    }
  }

  /** The `filter` loop with its in-place update of each star, over a copy of
      the pool: returns the new pool. */
  method AdvancePool(pool: seq<ShootingStar>, decay: real, height: real) returns (survivors: seq<ShootingStar>)
    ensures survivors == Advanced(pool, decay, height)
  {
    survivors := [];
    var i := 0;
    while i < |pool|
      invariant 0 <= i <= |pool|
      invariant survivors == Advanced(pool[..i], decay, height)
    {
      var star := pool[i];
      assert pool[..i + 1] == pool[..i] + [star];
      AdvancedAppend(pool[..i], [star], decay, height);
      if star.active {
        var m := Moved(star, decay);
        if Retired(m, height) {
          m := m.(active := false);
        }
        if m.active {
          survivors := survivors + [m];
        }
      }
      i := i + 1;
    }
    assert pool[..i] == pool;
  }

  /** Positions in the old pool of the stars that survive, in order. */
  function Origins(pool: seq<ShootingStar>, decay: real, height: real): seq<nat> {
    if pool == [] then []
    else (if Survives(pool[0], decay, height) then [0] else [])
         + Shifted(Origins(pool[1..], decay, height))
  }

  function Shifted(ks: seq<nat>): (r: seq<nat>)
    ensures |r| == |ks| && forall k :: 0 <= k < |ks| ==> r[k] == ks[k] + 1
  {
    if ks == [] then [] else [ks[0] + 1] + Shifted(ks[1..])
  }

  /** The advanced pool is exactly the stepped survivors of the old pool, in
      their old order: survivor k comes from position Origins[k], positions
      increase strictly, and every position whose star survives is listed. */
  lemma AdvancedCharacterized(pool: seq<ShootingStar>, decay: real, height: real)
    ensures var r, o := Advanced(pool, decay, height), Origins(pool, decay, height);
      && |r| == |o| <= |pool|
      && (forall k :: 0 <= k < |o| ==> o[k] < |pool| && r[k] == Stepped(pool[o[k]], decay, height))
      && (forall k, l :: 0 <= k < l < |o| ==> o[k] < o[l])
      && (forall i :: 0 <= i < |pool| ==> (Survives(pool[i], decay, height) <==> i in o))
  {
    OriginsMatch(pool, decay, height);
    OriginsComplete(pool, decay, height);
  }

  lemma {:induction false} OriginsMatch(pool: seq<ShootingStar>, decay: real, height: real)
    ensures var r, o := Advanced(pool, decay, height), Origins(pool, decay, height);
      && |r| == |o| <= |pool|
      && (forall k :: 0 <= k < |o| ==> o[k] < |pool| && r[k] == Stepped(pool[o[k]], decay, height))
      && StrictlyIncreasing(o)
  {
    OriginsElements(pool, decay, height);
    OriginsIncreasing(pool, decay, height);
  }

  lemma {:induction false} OriginsElements(pool: seq<ShootingStar>, decay: real, height: real)
    ensures var r, o := Advanced(pool, decay, height), Origins(pool, decay, height);
      && |r| == |o| <= |pool|
      && (forall k :: 0 <= k < |o| ==> o[k] < |pool| && r[k] == Stepped(pool[o[k]], decay, height))
    decreases |pool|
  {
    if pool != [] {
      var tail := pool[1..];
      OriginsElements(tail, decay, height);
      var rt, ot := Advanced(tail, decay, height), Origins(tail, decay, height);
      var st := Shifted(ot);
      var r, o := Advanced(pool, decay, height), Origins(pool, decay, height);
      var b := Survives(pool[0], decay, height);
      var hr := if b then [Stepped(pool[0], decay, height)] else [];
      var ho: seq<nat> := if b then [0] else [];
      assert r == hr + rt;
      assert o == ho + st;
      forall k | 0 <= k < |o| ensures o[k] < |pool| && r[k] == Stepped(pool[o[k]], decay, height) {
        if k >= |ho| {
          var j := k - |ho|;
          assert o[k] == st[j] == ot[j] + 1 && r[k] == rt[j];
          assert pool[o[k]] == tail[ot[j]];
        }
      }
    }
  }

  predicate StrictlyIncreasing(o: seq<nat>) {
    forall k, l :: 0 <= k < l < |o| ==> o[k] < o[l]
  }

  lemma {:induction false} OriginsIncreasing(pool: seq<ShootingStar>, decay: real, height: real)
    ensures StrictlyIncreasing(Origins(pool, decay, height))
    decreases |pool|
  {
    if pool != [] {
      var tail := pool[1..];
      OriginsIncreasing(tail, decay, height);
      var ot := Origins(tail, decay, height);
      var st := Shifted(ot);
      var ho: seq<nat> := if Survives(pool[0], decay, height) then [0] else [];
      var o := Origins(pool, decay, height);
      assert o == ho + st;
      forall k, l | 0 <= k < l < |o| ensures o[k] < o[l] {
        var j := l - |ho|;
        assert o[l] == st[j] == ot[j] + 1;
        if k >= |ho| {
          var i := k - |ho|;
          assert o[k] == st[i] == ot[i] + 1;
          assert 0 <= i < j < |ot|;
          assert ot[i] < ot[j];
        } else {
          assert o[k] == 0;
        }
      }
    }
  }

  lemma OriginsComplete(pool: seq<ShootingStar>, decay: real, height: real)
    ensures var o := Origins(pool, decay, height);
      forall i :: 0 <= i < |pool| ==> (Survives(pool[i], decay, height) <==> i in o)
  {
    forall i | 0 <= i < |pool|
      ensures Survives(pool[i], decay, height) <==> i in Origins(pool, decay, height)
    {
      OriginsCompleteAt(pool, decay, height, i);
    }
  }

  /** Position `i` is listed among the origins exactly when its star survives. */
  lemma {:induction false} OriginsCompleteAt(pool: seq<ShootingStar>, decay: real, height: real, i: nat)
    requires i < |pool|
    ensures Survives(pool[i], decay, height) <==> i in Origins(pool, decay, height)
    decreases |pool|
  {
    if i == 0 {
      OriginsHead(pool, decay, height);
    } else {
      assert pool[i] == pool[1..][i - 1];
      OriginsCompleteAt(pool[1..], decay, height, i - 1);
      OriginsTail(pool, decay, height, i);
    }
  }

  /** Position 0 is an origin exactly when the first star survives. */
  lemma OriginsHead(pool: seq<ShootingStar>, decay: real, height: real)
    requires pool != []
    ensures Survives(pool[0], decay, height) <==> 0 in Origins(pool, decay, height)
  {
    var st := Shifted(Origins(pool[1..], decay, height));
    assert 0 !in st;
    if Survives(pool[0], decay, height) {
      assert Origins(pool, decay, height)[0] == 0;
    } else {
      assert Origins(pool, decay, height) == st;
    }
  }

  /** Position `x > 0` is an origin exactly when `x - 1` is an origin of the pool's tail. */
  lemma OriginsTail(pool: seq<ShootingStar>, decay: real, height: real, x: nat)
    requires pool != [] && x > 0
    ensures x in Origins(pool, decay, height) <==> x - 1 in Origins(pool[1..], decay, height)
  {
    var ot := Origins(pool[1..], decay, height);
    ShiftedMember(ot, x - 1);
    if Survives(pool[0], decay, height) {
      assert Origins(pool, decay, height) == [0] + Shifted(ot);
    } else {
      assert Origins(pool, decay, height) == Shifted(ot);
    }
  }

  lemma ShiftedMember(ks: seq<nat>, x: nat)
    ensures x in ks <==> x + 1 in Shifted(ks)
  {
    var st := Shifted(ks);
    if x in ks {
      var k :| 0 <= k < |ks| && ks[k] == x;
      assert st[k] == x + 1;
    }
    if x + 1 in st {
      var k :| 0 <= k < |st| && st[k] == x + 1;
      assert ks[k] == x;
    }
  }

  /** Advancing never grows the pool. */
  lemma AdvancedNeverGrows(pool: seq<ShootingStar>, decay: real, height: real)
    ensures |Advanced(pool, decay, height)| <= |pool|
  {
    AdvancedCharacterized(pool, decay, height);
  }

  /** Every star left in the pool is active and not retired, and keeps the
      velocity and length of the star it came from. */
  lemma AdvancedSurvivorsLive(pool: seq<ShootingStar>, decay: real, height: real)
    ensures forall t :: t in Advanced(pool, decay, height) ==>
      t.active && !Retired(t, height) && exists s :: s in pool && t == Stepped(s, decay, height)
  {
    AdvancedCharacterized(pool, decay, height);
    var r, o := Advanced(pool, decay, height), Origins(pool, decay, height);
    forall t | t in r
      ensures t.active && !Retired(t, height) && exists s :: s in pool && t == Stepped(s, decay, height)
    {
      var k :| 0 <= k < |r| && r[k] == t;
      assert pool[o[k]] in pool;
      assert Survives(pool[o[k]], decay, height) by { assert o[k] in o; }
    }
  }

  /** A live star that falls at least `minVy` pixels a frame. */
  predicate FallingLive(s: ShootingStar, minVy: real) {
    s.active && s.vy >= minVy
  }

  /** Advancing a pool of live stars that fall at least `minVy` pixels a frame
      never grows it, and every survivor is again such a star. */
  lemma SurvivorsKeepFalling(pool: seq<ShootingStar>, decay: real, height: real, minVy: real)
    requires forall k :: 0 <= k < |pool| ==> FallingLive(pool[k], minVy)
    ensures |Advanced(pool, decay, height)| <= |pool|
    ensures forall k :: 0 <= k < |Advanced(pool, decay, height)| ==>
      FallingLive(Advanced(pool, decay, height)[k], minVy)
  {
    AdvancedNeverGrows(pool, decay, height);
    AdvancedSurvivorsLive(pool, decay, height);
    var r := Advanced(pool, decay, height);
    forall k | 0 <= k < |r| ensures FallingLive(r[k], minVy) {
      assert r[k] in r;
      var s :| s in pool && r[k] == Stepped(s, decay, height);
    }
  }

  /** The pool after `n` frames with no new stars. */
  function AdvancedTimes(pool: seq<ShootingStar>, decay: real, height: real, n: nat): seq<ShootingStar>
    decreases n
  {
    if n == 0 then pool else AdvancedTimes(Advanced(pool, decay, height), decay, height, n - 1)
  }

  lemma {:induction false} AdvancedTimesAppend(a: seq<ShootingStar>, b: seq<ShootingStar>, decay: real, height: real, n: nat)
    ensures AdvancedTimes(a + b, decay, height, n)
         == AdvancedTimes(a, decay, height, n) + AdvancedTimes(b, decay, height, n)
    decreases n
  {
    if n > 0 {
      AdvancedAppend(a, b, decay, height);
      AdvancedTimesAppend(Advanced(a, decay, height), Advanced(b, decay, height), decay, height, n - 1);
    }
  }

  lemma {:induction false} AdvancedTimesSplit(pool: seq<ShootingStar>, decay: real, height: real, m: nat, k: nat)
    ensures AdvancedTimes(pool, decay, height, m + k)
         == AdvancedTimes(AdvancedTimes(pool, decay, height, m), decay, height, k)
    decreases m
  {
    if m > 0 {
      AdvancedTimesSplit(Advanced(pool, decay, height), decay, height, m - 1, k);
    }
  }

  lemma {:induction false} EmptyStaysEmpty(decay: real, height: real, n: nat)
    ensures AdvancedTimes([], decay, height, n) == []
    decreases n
  {
    if n > 0 {
      EmptyStaysEmpty(decay, height, n - 1);
    }
  }

  /** A lone star, `n` frames on, is gone or is one star that has fallen at
      least `n` times its (at least unit) downward speed. */
  lemma {:induction false} LoneStarFalls(s: ShootingStar, decay: real, height: real, n: nat)
    requires s.vy >= 1.0
    ensures var p := AdvancedTimes([s], decay, height, n);
      p == [] || (|p| == 1 && p[0].vy == s.vy && p[0].y >= s.y + n as real)
    decreases n
  {
    if n > 0 {
      AdvancedTimesSplit([s], decay, height, n - 1, 1);
      LoneStarFalls(s, decay, height, n - 1);
      var p := AdvancedTimes([s], decay, height, n - 1);
      if p == [] {
        EmptyStaysEmpty(decay, height, 1);
      } else {
        assert p == [p[0]];
        assert Advanced(p, decay, height) == (if Survives(p[0], decay, height) then [Stepped(p[0], decay, height)] else []) + Advanced([], decay, height);
      }
    }
  }

  /** Enough frames for a star falling at least one pixel per frame to pass
      the retirement line `height + 50`. */
  function FramesToExit(s: ShootingStar, height: real): (n: nat)
    ensures s.y + n as real > height + BottomMargin
  {
    if s.y > height + BottomMargin then 0
    else (height + BottomMargin - s.y).Floor + 1
  }

  /** A star that falls at least one pixel per frame has left the pool after
      `FramesToExit` frames, and stays gone. */
  lemma LoneStarRetires(s: ShootingStar, decay: real, height: real, n: nat)
    requires s.vy >= 1.0
    requires n >= FramesToExit(s, height) + 1
    ensures AdvancedTimes([s], decay, height, n) == []
  {
    var m := FramesToExit(s, height);
    LoneStarFalls(s, decay, height, m);
    var p := AdvancedTimes([s], decay, height, m);
    AdvancedTimesSplit([s], decay, height, m, n - m);
    if p != [] {
      assert p == [p[0]];
      assert Moved(p[0], decay).y > height + BottomMargin;
      assert Advanced(p, decay, height) == [] + Advanced([], decay, height);
      AdvancedTimesSplit(p, decay, height, 1, n - m - 1);
    }
    EmptyStaysEmpty(decay, height, n - m - 1);
    EmptyStaysEmpty(decay, height, n - m);
  }

  /** Frames after which every star of the pool has passed the retirement line. */
  function DrainBound(pool: seq<ShootingStar>, height: real): (n: nat)
    ensures forall k :: 0 <= k < |pool| ==> n >= FramesToExit(pool[k], height) + 1
  {
    if pool == [] then 0
    else
      var rest := DrainBound(pool[1..], height);
      var first := FramesToExit(pool[0], height) + 1;
      if first < rest then rest else first
  }

  /** With no new stars, a pool whose stars all fall at least one pixel per
      frame is empty after `DrainBound` frames: no star lives forever. */
  lemma {:induction false} PoolDrains(pool: seq<ShootingStar>, decay: real, height: real, n: nat)
    requires forall k :: 0 <= k < |pool| ==> pool[k].vy >= 1.0
    requires n >= DrainBound(pool, height)
    ensures AdvancedTimes(pool, decay, height, n) == []
    decreases |pool|
  {
    if pool == [] {
      EmptyStaysEmpty(decay, height, n);
    } else {
      assert pool == [pool[0]] + pool[1..];
      AdvancedTimesAppend([pool[0]], pool[1..], decay, height, n);
      LoneStarRetires(pool[0], decay, height, n);
      PoolDrains(pool[1..], decay, height, n);
    }
  }

  /** The spawn step `if (Math.random() < chance && pool.length < cap) pool.push(star)`. */
  function TrySpawn(pool: seq<ShootingStar>, cap: nat, chance: real, draw: real, star: ShootingStar): (r: seq<ShootingStar>)
    ensures r == pool || r == pool + [star]
    ensures |r| > |pool| <==> draw < chance && |pool| < cap
    ensures |pool| <= cap ==> |r| <= cap
  {
    if draw < chance && |pool| < cap then pool + [star] else pool
  }
}
