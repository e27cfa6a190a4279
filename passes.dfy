/**
 * The per-frame update passes over the entity lists (project.py:964-1127):
 * enemies act and touch the player, player bullets fly and hit enemies,
 * enemy bullets fly and hit the player, powerups spin and are picked up.
 *
 * Every pass walks its list from the last element to the first, as the
 * source's `range(len(xs) - 1, -1, -1)` loops do, removing elements in
 * place. Each pass is specified by a recursive function that handles the
 * last element and then the rest, and implemented by a loop method whose
 * postcondition is that function.
 */
module Passes {
  import opened Levels
  import opened Entities

  /** Every enemy in the list is alive. */
  predicate AllAlive(es: seq<Enemy>)
  {
    forall i :: 0 <= i < |es| ==> es[i].health > 0
  }

  /** The points the enemies of a list are worth when destroyed. */
  function Worth(es: seq<Enemy>): nat
  {
    if es == [] then 0 else Info(es[0].kind).points + Worth(es[1..])
  }

  lemma {:induction false} WorthConcat(a: seq<Enemy>, b: seq<Enemy>)
    ensures Worth(a + b) == Worth(a) + Worth(b)
  {
    if a != [] {
      assert (a + b)[0] == a[0] && (a + b)[1..] == a[1..] + b;
      assert Worth(a + b) == Info(a[0].kind).points + Worth(a[1..] + b);
      WorthConcat(a[1..], b);
    } else {
      assert a + b == b;
    }
  }

  /** Removing one enemy takes away exactly its points. */
  lemma WorthRemove(es: seq<Enemy>, j: nat)
    requires j < |es|
    ensures Worth(es[..j] + es[j + 1..]) == Worth(es) - Info(es[j].kind).points
  {
    var a, c := es[..j], es[j + 1..];
    WorthSplit(a, es[j], c);
    WorthConcat(a, c);
    SplitAt(es, j, es[j]);
  }

  /** Changing one enemy's health keeps what the list is worth. */
  lemma WorthUpdate(es: seq<Enemy>, j: nat, e: Enemy)
    requires j < |es| && e.kind == es[j].kind
    ensures Worth(es[j := e]) == Worth(es)
  {
    var a, c := es[..j], es[j + 1..];
    WorthSplit(a, es[j], c);
    WorthSplit(a, e, c);
    SplitAt(es, j, es[j]);
    SplitAt(es, j, e);
  }

  /** A list with element j replaced, cut around j. */
  lemma SplitAt(es: seq<Enemy>, j: nat, e: Enemy)
    requires j < |es|
    ensures es[j := e] == es[..j] + ([e] + es[j + 1..])
    ensures es[j := es[j]] == es
  {
  }

  /** What a list with one enemy singled out is worth. */
  lemma WorthSplit(a: seq<Enemy>, x: Enemy, c: seq<Enemy>)
    ensures Worth(a + ([x] + c)) == Worth(a) + Info(x.kind).points + Worth(c)
  {
    WorthConcat(a, [x] + c);
    assert ([x] + c)[0] == x && ([x] + c)[1..] == c;
  }

  /** Overwriting the element between a and rest, as the loops do in place. */
  lemma SeqReplace<T>(a: seq<T>, x: T, y: T, rest: seq<T>)
    ensures (a + [x] + rest)[|a| := y] == a + ([y] + rest)
  {
  }

  lemma SliceSnoc<T>(s: seq<T>, i: nat)
    requires i < |s|
    ensures s[..i + 1] == s[..i] + [s[i]]
  {
  }

  /** Popping the element between a and rest, as list.pop(i) does. */
  lemma SeqRemove<T>(a: seq<T>, x: T, rest: seq<T>)
    ensures (a + [x] + rest)[..|a|] + (a + [x] + rest)[|a| + 1..] == a + rest
  {
    assert (a + [x] + rest)[..|a|] == a;
    assert (a + [x] + rest)[|a| + 1..] == rest;
  }

  // ---------------------------------------------------------------------
  // Player bullets (project.py:1043-1076)

  /** One frame of straight flight. */
  function Advance(b: Bullet, dt: real): Bullet
  {
    b.(x := b.x + b.dx * dt, y := b.y + b.dy * dt, z := b.z + b.dz * dt)
  }

  /** The bullet is strictly inside the enemy's hit sphere. */
  predicate BulletHits(b: Bullet, e: Enemy)
  {
    DistSq3(b.x, b.y, b.z, e.x, e.y, e.z) < Square(Info(e.kind).radius)
  }

  /** The highest index below n whose enemy the bullet hits. */
  function LastHit(es: seq<Enemy>, b: Bullet, n: nat): (r: Option<nat>)
    requires n <= |es|
    ensures r.Some? ==> r.value < n && BulletHits(b, es[r.value])
    ensures r.Some? ==> forall k :: r.value < k < n ==> !BulletHits(b, es[k])
    ensures r.None? ==> forall k :: 0 <= k < n ==> !BulletHits(b, es[k])
  {
    if n == 0 then None
    else if BulletHits(b, es[n - 1]) then Some(n - 1)
    else LastHit(es, b, n - 1)
  }

  /** The inner loop of update_bullets: the last enemy in the list that the bullet is inside. */
  method FindTarget(es: seq<Enemy>, b: Bullet) returns (j: Option<nat>)
    ensures j == LastHit(es, b, |es|)
  {
    var k := |es|;
    while k > 0
      invariant 0 <= k <= |es|
      invariant LastHit(es, b, |es|) == LastHit(es, b, k)
    {
      if BulletHits(b, es[k - 1]) {
        return Some(k - 1);
      }
      k := k - 1;
    }
    return None;
  }

  /**
   * What one (already moved) bullet does: whether it stays in flight, the
   * enemy list after it, the powerups it drops, the points it earns and the
   * index of the next unused powerup sample.
   */
  datatype BulletOutcome = BulletOutcome(keep: bool, enemies: seq<Enemy>, drops: seq<Powerup>, gain: nat, next: nat)

  /**
   * A bullet inside a wall vanishes; otherwise it strikes the last enemy it
   * is inside, taking 15 health, and a strike that leaves the enemy at zero
   * or below destroys it for its points and drops one powerup where it
   * stood. A bullet that strikes vanishes. The source tests the level
   * bounds last; a point outside the level counts as a wall, so here that
   * test sits with the wall test (see OutOfBoundsIsWall).
   */
  function BulletStep(g: Layout, b: Bullet, es: seq<Enemy>, drops: nat -> PowerupKind, next: nat): (o: BulletOutcome)
    ensures o.keep ==> InBounds(g, b.x, b.y) && !IsWall(g, b.x, b.y)
    ensures |o.drops| <= 1 && |o.enemies| + |o.drops| == |es| && o.next == next + |o.drops|
    ensures o.gain == Worth(es) - Worth(o.enemies)
    ensures AllAlive(es) ==> AllAlive(o.enemies)
  {
    if IsWall(g, b.x, b.y) || !InBounds(g, b.x, b.y) then BulletOutcome(false, es, [], 0, next)
    else
      match LastHit(es, b, |es|)
      case Some(j) => Strike(es, j, drops, next)
      case None => BulletOutcome(true, es, [], 0, next)
  }

  /** A bullet striking enemy j: 15 damage, and at zero or below the enemy is destroyed. */
  function Strike(es: seq<Enemy>, j: nat, drops: nat -> PowerupKind, next: nat): (o: BulletOutcome)
    requires j < |es|
    ensures !o.keep
    ensures |o.drops| <= 1 && |o.enemies| + |o.drops| == |es| && o.next == next + |o.drops|
    ensures o.gain == Worth(es) - Worth(o.enemies)
    ensures AllAlive(es) ==> AllAlive(o.enemies)
  {
    var e := es[j].(health := es[j].health - BULLET_DAMAGE);
    if e.health <= 0 then
      WorthRemove(es, j);
      BulletOutcome(false, es[..j] + es[j + 1..], [DropAt(drops(next), e.x, e.y)], Info(e.kind).points, next + 1)
    else
      WorthUpdate(es, j, e);
      BulletOutcome(false, es[j := e], [], 0, next)
  }

  /**
   * A bullet stays in flight exactly when it is outside the walls and hits
   * no enemy, and then the enemies are untouched; a strike removes 15
   * health from the last enemy hit, or destroys it for its points and one
   * drop where it stood when that leaves it at zero or below.
   */
  lemma BulletStepEffect(g: Layout, b: Bullet, es: seq<Enemy>, drops: nat -> PowerupKind, next: nat)
    ensures var o := BulletStep(g, b, es, drops, next);
      && (o.keep <==> !IsWall(g, b.x, b.y) && LastHit(es, b, |es|).None?)
      && (o.keep ==> o.enemies == es && o.drops == [] && o.gain == 0)
      && (IsWall(g, b.x, b.y) ==> o == BulletOutcome(false, es, [], 0, next))
  {
  }

  /** A bullet inside the level and outside the walls that hits an enemy strikes the last one hit. */
  lemma StrikesLastHit(g: Layout, b: Bullet, es: seq<Enemy>, drops: nat -> PowerupKind, next: nat)
    requires !IsWall(g, b.x, b.y) && LastHit(es, b, |es|).Some?
    ensures BulletStep(g, b, es, drops, next) == Strike(es, LastHit(es, b, |es|).value, drops, next)
  {
    assert InBounds(g, b.x, b.y);
  }

  /**
   * A strike that leaves the enemy above zero takes 15 health off it and
   * keeps it in place; one that leaves it at zero or below removes it from
   * the list, scores its points and drops one powerup where it stood.
   */
  lemma StrikeEffect(es: seq<Enemy>, j: nat, drops: nat -> PowerupKind, next: nat)
    requires j < |es|
    ensures var o := Strike(es, j, drops, next);
      && (es[j].health > BULLET_DAMAGE ==>
            o.enemies == es[j := es[j].(health := es[j].health - BULLET_DAMAGE)] && o.drops == [] && o.gain == 0)
      && (es[j].health <= BULLET_DAMAGE ==>
            o.enemies == es[..j] + es[j + 1..] && o.gain == Info(es[j].kind).points
            && o.drops == [DropAt(drops(next), es[j].x, es[j].y)])
  {
  }

  /** Every enemy of the list stands outside the walls. */
  predicate EnemiesClear(g: Layout, es: seq<Enemy>)
  {
    forall i :: 0 <= i < |es| ==> !IsWall(g, es[i].x, es[i].y)
  }

  lemma ClearRemove(g: Layout, es: seq<Enemy>, j: nat)
    requires j < |es| && EnemiesClear(g, es)
    ensures EnemiesClear(g, es[..j] + es[j + 1..])
  {
    var r := es[..j] + es[j + 1..];
    assert forall i :: 0 <= i < |r| ==> r[i] == (if i < j then es[i] else es[i + 1]);
  }

  /** A bullet moves no enemy: one it strikes keeps its place or is removed. */
  lemma BulletStepKeepsClear(g: Layout, b: Bullet, es: seq<Enemy>, drops: nat -> PowerupKind, next: nat)
    requires EnemiesClear(g, es)
    ensures EnemiesClear(g, BulletStep(g, b, es, drops, next).enemies)
  {
    if !IsWall(g, b.x, b.y) && LastHit(es, b, |es|).Some? {
      var j := LastHit(es, b, |es|).value;
      if es[j].health - BULLET_DAMAGE <= 0 {
        ClearRemove(g, es, j);
      }
    }
  }

  /** The player bullets still in flight, the enemies, the powerups dropped (in order) and the points earned. */
  datatype BulletPass = BulletPass(bullets: seq<Bullet>, enemies: seq<Enemy>, drops: seq<Powerup>, gain: nat, next: nat)

  /** The player-bullet loop of update_bullets, from the last bullet to the first. */
  function PlayerBullets(g: Layout, dt: real, bs: seq<Bullet>, es: seq<Enemy>, drops: nat -> PowerupKind, next: nat): BulletPass
    decreases |bs|
  {
    if bs == [] then BulletPass([], es, [], 0, next)
    else
      var b := Advance(bs[|bs| - 1], dt);
      var o := BulletStep(g, b, es, drops, next);
      var rest := PlayerBullets(g, dt, bs[..|bs| - 1], o.enemies, drops, o.next);
      BulletPass(rest.bullets + (if o.keep then [b] else []), rest.enemies, o.drops + rest.drops, o.gain + rest.gain, rest.next)
  }

  /**
   * Bullets vanish but never appear, every survivor is inside the level
   * and outside the walls, one powerup drops and one sample is used per
   * destroyed enemy, the points earned are exactly what the destroyed
   * enemies were worth, and enemies left behind are alive when they all
   * were.
   */
  lemma {:induction false} PlayerBulletsFacts(g: Layout, dt: real, bs: seq<Bullet>, es: seq<Enemy>, drops: nat -> PowerupKind, next: nat)
    ensures var r := PlayerBullets(g, dt, bs, es, drops, next);
      && |r.bullets| <= |bs|
      && (forall i :: 0 <= i < |r.bullets| ==> InBounds(g, r.bullets[i].x, r.bullets[i].y) && !IsWall(g, r.bullets[i].x, r.bullets[i].y))
      && |r.enemies| + |r.drops| == |es| && r.next == next + |r.drops|
      && r.gain == Worth(es) - Worth(r.enemies)
      && (AllAlive(es) ==> AllAlive(r.enemies))
      && (EnemiesClear(g, es) ==> EnemiesClear(g, r.enemies))
    decreases |bs|
  {
    if bs != [] {
      var b := Advance(bs[|bs| - 1], dt);
      var o := BulletStep(g, b, es, drops, next);
      if EnemiesClear(g, es) {
        BulletStepKeepsClear(g, b, es, drops, next);
      }
      PlayerBulletsFacts(g, dt, bs[..|bs| - 1], o.enemies, drops, o.next);
    }
  }

  /** The rest of a pass still to run, followed by what the loop has already done. */
  function Resume(rest: BulletPass, done: seq<Bullet>, drops: seq<Powerup>, gain: nat): BulletPass
  {
    BulletPass(rest.bullets + done, rest.enemies, drops + rest.drops, gain + rest.gain, rest.next)
  }

  /** The bullet itself when it stays in flight, nothing otherwise. */
  function Kept(o: BulletOutcome, b: Bullet): seq<Bullet>
  {
    if o.keep then [b] else []
  }

  /** One step of PlayerBullets on the prefix that ends at index i. */
  lemma BulletsUnfold(g: Layout, dt: real, bs: seq<Bullet>, es: seq<Enemy>, drops: nat -> PowerupKind, next: nat, i: nat)
    requires i < |bs|
    ensures var b := Advance(bs[i], dt);
      var o := BulletStep(g, b, es, drops, next);
      PlayerBullets(g, dt, bs[..i + 1], es, drops, next)
      == BulletPass(PlayerBullets(g, dt, bs[..i], o.enemies, drops, o.next).bullets + Kept(o, b),
                    PlayerBullets(g, dt, bs[..i], o.enemies, drops, o.next).enemies,
                    o.drops + PlayerBullets(g, dt, bs[..i], o.enemies, drops, o.next).drops,
                    o.gain + PlayerBullets(g, dt, bs[..i], o.enemies, drops, o.next).gain,
                    PlayerBullets(g, dt, bs[..i], o.enemies, drops, o.next).next)
  {
    assert bs[..i + 1][..i] == bs[..i];
  }

  /** Moving one finished bullet from the pass still to run to the loop's record. */
  lemma ResumeBulletsShift(rest: BulletPass, o: BulletOutcome, b: Bullet, done: seq<Bullet>, drops: seq<Powerup>, gain: nat)
    ensures Resume(BulletPass(rest.bullets + Kept(o, b), rest.enemies, o.drops + rest.drops, o.gain + rest.gain, rest.next), done, drops, gain)
         == Resume(rest, Kept(o, b) + done, drops + o.drops, gain + o.gain)
  {
    assert (rest.bullets + Kept(o, b)) + done == rest.bullets + (Kept(o, b) + done);
    assert drops + (o.drops + rest.drops) == (drops + o.drops) + rest.drops;
  }

  /** The body of update_bullets for one moved bullet, with its inner search loop. */
  method StrikeTarget(g: Layout, b: Bullet, es: seq<Enemy>, drops: nat -> PowerupKind, next: nat)
    returns (o: BulletOutcome)
    ensures o == BulletStep(g, b, es, drops, next)
  {
    if IsWall(g, b.x, b.y) || !InBounds(g, b.x, b.y) {
      return BulletOutcome(false, es, [], 0, next);
    }
    var j := FindTarget(es, b);
    if j.Some? {
      var e := es[j.value].(health := es[j.value].health - BULLET_DAMAGE);
      if e.health <= 0 {
        return BulletOutcome(false, es[..j.value] + es[j.value + 1..], [DropAt(drops(next), e.x, e.y)], Info(e.kind).points, next + 1);
      }
      return BulletOutcome(false, es[j.value := e], [], 0, next);
    }
    return BulletOutcome(true, es, [], 0, next);
  }

  /** The player-bullet loop, popping bullets from the list in place. */
  method PlayerBulletPass(g: Layout, dt: real, bs: seq<Bullet>, es: seq<Enemy>, drops: nat -> PowerupKind, next: nat)
    returns (r: BulletPass)
    ensures r == PlayerBullets(g, dt, bs, es, drops, next)
  {
    var bullets := bs;
    var enemies := es;
    var dropped: seq<Powerup> := [];
    var gain: nat := 0;
    var n := next;
    ghost var done: seq<Bullet> := [];
    var i := |bs|;
    assert bs[..i] == bs;
    while i > 0
      invariant 0 <= i <= |bs|
      invariant bullets == bs[..i] + done
      invariant PlayerBullets(g, dt, bs, es, drops, next)
             == Resume(PlayerBullets(g, dt, bs[..i], enemies, drops, n), done, dropped, gain)
    {
      i := i - 1;
      SliceSnoc(bs, i);
      assert bullets == bs[..i] + [bs[i]] + done;
      var b := Advance(bullets[i], dt);
      var o := StrikeTarget(g, b, enemies, drops, n);
      BulletsUnfold(g, dt, bs, enemies, drops, n, i);
      ResumeBulletsShift(PlayerBullets(g, dt, bs[..i], o.enemies, drops, o.next), o, b, done, dropped, gain);
      if o.keep {
        SeqReplace(bs[..i], bs[i], b, done);
        bullets := bullets[i := b];
        done := [b] + done;
      } else {
        SeqRemove(bs[..i], bs[i], done);
        bullets := bullets[..i] + bullets[i + 1..];
        assert [] + done == done;
      }
      enemies := o.enemies;
      dropped := dropped + o.drops;
      gain := gain + o.gain;
      n := o.next;
    }
    assert bs[..0] == [];
    return BulletPass(bullets, enemies, dropped, gain, n);
  }

  // ---------------------------------------------------------------------
  // Enemies (project.py:964-1034)

  /**
   * The player differs from p at most in health and shield, the shield did
   * not grow and stays non-negative, and health did not grow either unless
   * it was already negative.
   */
  predicate OnlyHurt(p: Player, q: Player)
  {
    && q == p.(health := q.health, shield := q.shield)
    && 0 <= q.shield <= p.shield
    && (p.health >= 0 ==> 0 <= q.health <= p.health)
  }

  /** A hit never heals, and a player alive before it has died exactly when it was fatal. */
  lemma HitOnlyHurts(p: Player, damage: nat)
    requires p.shield >= 0
    ensures OnlyHurt(p, ApplyDamage(p, damage).player)
    ensures ApplyDamage(p, damage).fatal ==> ApplyDamage(p, damage).player.health == 0
    ensures p.health > 0 ==> (ApplyDamage(p, damage).fatal <==> ApplyDamage(p, damage).player.health == 0)
  {
  }

  /**
   * What the frame supplies for one enemy beyond the model's state: the
   * reciprocal of its distance to the player (a square root) and the
   * velocity a sniper's bullet gets from its facing angle (trigonometry).
   */
  datatype Steering = Steering(invDist: real, aim: Vec2)

  datatype EnemyOutcome = EnemyOutcome(enemy: Enemy, shot: Option<EnemyBullet>, player: Player, fatal: bool)

  function SniperFires(p: Player, e: Enemy, now: real): bool
  {
    e.kind == Sniper
    && DistSq(p.x, p.y, e.x, e.y) <= Square(Info(e.kind).shootRange)
    && now - e.lastShotTime >= Info(e.kind).fireInterval
  }

  function Chases(p: Player, e: Enemy): bool
  {
    var d2 := DistSq(p.x, p.y, e.x, e.y);
    e.kind != Sniper && d2 > Square(Info(e.kind).radius * 1.5) && d2 > 0.0
  }

  function Touches(p: Player, e: Enemy, now: real): bool
  {
    DistSq(p.x, p.y, e.x, e.y) < Square(PLAYER_RADIUS + Info(e.kind).radius)
    && now - e.lastContactTime > ENEMY_CONTACT_INTERVAL
  }

  /** Where a chasing enemy's step would end: its speed times dt along the direction to the player. */
  function ChaseTarget(p: Player, e: Enemy, s: Steering, dt: real): Vec2
  {
    var moveDist := Info(e.kind).speed * dt;
    Vec2(e.x + (p.x - e.x) * s.invDist * moveDist, e.y + (p.y - e.y) * s.invDist * moveDist)
  }

  /**
   * The behaviour branch of one enemy's turn: a sniper that fires records
   * the time, another type steps towards the player by its speed times dt
   * when farther than 1.5 radii, unless the step ends inside a wall: it
   * moves to ChaseTarget exactly when it chases and that point is free.
   */
  function Act(g: Layout, p: Player, e: Enemy, s: Steering, now: real, dt: real): (a: Enemy)
    ensures a == e.(x := a.x, y := a.y, lastShotTime := a.lastShotTime)
    ensures a.lastShotTime == (if SniperFires(p, e, now) then now else e.lastShotTime)
    ensures (a.x, a.y) != (e.x, e.y) ==> Chases(p, e) && !IsWall(g, a.x, a.y)
    ensures Chases(p, e) && !IsWall(g, ChaseTarget(p, e, s, dt).x, ChaseTarget(p, e, s, dt).y) ==>
      Vec2(a.x, a.y) == ChaseTarget(p, e, s, dt)
    ensures !Chases(p, e) || IsWall(g, ChaseTarget(p, e, s, dt).x, ChaseTarget(p, e, s, dt).y) ==>
      a.x == e.x && a.y == e.y
  {
    if e.kind == Sniper then
      if SniperFires(p, e, now) then e.(lastShotTime := now) else e
    else if Chases(p, e) then
      var next := ChaseTarget(p, e, s, dt);
      if !IsWall(g, next.x, next.y) then e.(x := next.x, y := next.y) else e
    else e
  }

  /**
   * One enemy's turn. A sniper in range whose fire interval has elapsed
   * fires one bullet of its type's damage from 1.8 times its size above the
   * ground; other types step towards the player when farther than 1.5
   * radii, unless the step ends inside a wall. An enemy close enough to the
   * player (measured before it moved) whose contact interval has elapsed
   * deals its damage. The enemy's type and health never change.
   */
  function EnemyStep(g: Layout, p: Player, e: Enemy, s: Steering, now: real, dt: real): (o: EnemyOutcome)
    requires p.shield >= 0
    ensures o.enemy.kind == e.kind && o.enemy.health == e.health && o.enemy.z == e.z
    ensures o.shot.Some? <==> SniperFires(p, e, now)
    ensures o.shot.Some? ==> o.shot.value == EnemyBullet(e.x, e.y, 45.0, s.aim.x, s.aim.y, 15)
    ensures OnlyHurt(p, o.player) && (o.fatal ==> o.player.health == 0)
    ensures p.health > 0 ==> (o.fatal <==> o.player.health == 0)
  {
    var info := Info(e.kind);
    var acted := Act(g, p, e, s, now, dt);
    var shot := if SniperFires(p, e, now) then Some(EnemyBullet(e.x, e.y, info.size * 1.8, s.aim.x, s.aim.y, info.damage)) else None;
    if Touches(p, e, now) then
      var h := ApplyDamage(p, info.damage);
      HitOnlyHurts(p, info.damage);
      EnemyOutcome(acted.(lastContactTime := now), shot, h.player, h.fatal)
    else EnemyOutcome(acted, shot, p, false)
  }

  /**
   * Contact damage: an enemy close enough to the player whose contact
   * interval has elapsed deals its type's damage (shield first) and records
   * the time; otherwise the player is untouched. Apart from that the enemy
   * is what its behaviour branch made of it.
   */
  lemma EnemyStepContact(g: Layout, p: Player, e: Enemy, s: Steering, now: real, dt: real)
    requires p.shield >= 0
    ensures var o := EnemyStep(g, p, e, s, now, dt);
      && (Touches(p, e, now) ==> o.enemy.lastContactTime == now && ApplyDamage(p, Info(e.kind).damage) == Hit(o.player, o.fatal))
      && (!Touches(p, e, now) ==> o.enemy.lastContactTime == e.lastContactTime && o.player == p && !o.fatal)
      && o.enemy == Act(g, p, e, s, now, dt).(lastContactTime := o.enemy.lastContactTime)
  {
  }

  /** The enemies after their turns, the bullets they fired (in firing order), the player, and whether a hit was fatal. */
  datatype EnemyPass = EnemyPass(enemies: seq<Enemy>, shots: seq<EnemyBullet>, player: Player, fatal: bool)


  /**
   * The loop of update_enemies. The list keeps its length, and every
   * enemy its type and health; only snipers fire, at most once each; the
   * player is only hurt; and a player alive at the start has died exactly
   * when some hit was fatal.
   */
  function Enemies(g: Layout, p: Player, es: seq<Enemy>, steer: seq<Steering>, now: real, dt: real): (r: EnemyPass)
    requires |steer| == |es| && p.shield >= 0
    ensures |r.enemies| == |es|
    ensures forall i :: 0 <= i < |es| ==> r.enemies[i].kind == es[i].kind && r.enemies[i].health == es[i].health
    ensures |r.shots| <= |es|
    ensures forall i :: 0 <= i < |r.shots| ==> r.shots[i].damage == Info(Sniper).damage
    ensures OnlyHurt(p, r.player)
    ensures p.health > 0 ==> (r.fatal <==> r.player.health == 0)
    decreases |es|
  {
    if es == [] then EnemyPass([], [], p, false)
    else
      var k := |es| - 1;
      var o := EnemyStep(g, p, es[k], steer[k], now, dt);
      var rest := Enemies(g, o.player, es[..k], steer[..k], now, dt);
      EnemyPass(rest.enemies + [o.enemy], (if o.shot.Some? then [o.shot.value] else []) + rest.shots, rest.player, o.fatal || rest.fatal)
  }

  /** Every enemy bullet of the list is outside the walls. */
  predicate ShotsClear(g: Layout, bs: seq<EnemyBullet>)
  {
    forall i :: 0 <= i < |bs| ==> !IsWall(g, bs[i].x, bs[i].y)
  }

  /**
   * Enemies never walk into a wall, and every bullet a sniper fires starts
   * where the sniper stands, so outside the walls too.
   */
  lemma {:induction false} EnemiesStayClear(g: Layout, p: Player, es: seq<Enemy>, steer: seq<Steering>, now: real, dt: real)
    requires |steer| == |es| && p.shield >= 0 && EnemiesClear(g, es)
    ensures EnemiesClear(g, Enemies(g, p, es, steer, now, dt).enemies)
    ensures ShotsClear(g, Enemies(g, p, es, steer, now, dt).shots)
    decreases |es|
  {
    if es != [] {
      var k := |es| - 1;
      var o := EnemyStep(g, p, es[k], steer[k], now, dt);
      EnemyStepContact(g, p, es[k], steer[k], now, dt);
      assert EnemiesClear(g, es[..k]);
      EnemiesStayClear(g, o.player, es[..k], steer[..k], now, dt);
      var rest := Enemies(g, o.player, es[..k], steer[..k], now, dt);
      assert Enemies(g, p, es, steer, now, dt).enemies == rest.enemies + [o.enemy];
    }
  }

  function ResumeEnemies(rest: EnemyPass, done: seq<Enemy>, shots: seq<EnemyBullet>, fatal: bool): EnemyPass
  {
    EnemyPass(rest.enemies + done, shots + rest.shots, rest.player, fatal || rest.fatal)
  }

  /** The shots list after one enemy's turn appends its shot, if any. */
  function WithShot(shots: seq<EnemyBullet>, o: EnemyOutcome): seq<EnemyBullet>
  {
    if o.shot.Some? then shots + [o.shot.value] else shots
  }

  /** One step of Enemies on the prefix that ends at index i. */
  lemma EnemiesUnfold(g: Layout, p: Player, es: seq<Enemy>, steer: seq<Steering>, now: real, dt: real, i: nat)
    requires |steer| == |es| && p.shield >= 0 && i < |es|
    ensures var o := EnemyStep(g, p, es[i], steer[i], now, dt);
      Enemies(g, p, es[..i + 1], steer[..i + 1], now, dt)
      == EnemyPass(Enemies(g, o.player, es[..i], steer[..i], now, dt).enemies + [o.enemy],
                   WithShot([], o) + Enemies(g, o.player, es[..i], steer[..i], now, dt).shots,
                   Enemies(g, o.player, es[..i], steer[..i], now, dt).player,
                   o.fatal || Enemies(g, o.player, es[..i], steer[..i], now, dt).fatal)
  {
    assert es[..i + 1][..i] == es[..i] && steer[..i + 1][..i] == steer[..i];
  }

  /** Moving one finished enemy from the pass still to run to the loop's record. */
  lemma ResumeEnemiesShift(rest: EnemyPass, o: EnemyOutcome, done: seq<Enemy>, shots: seq<EnemyBullet>, fatal: bool)
    ensures ResumeEnemies(EnemyPass(rest.enemies + [o.enemy], WithShot([], o) + rest.shots, rest.player, o.fatal || rest.fatal), done, shots, fatal)
         == ResumeEnemies(rest, [o.enemy] + done, WithShot(shots, o), fatal || o.fatal)
  {
    assert (rest.enemies + [o.enemy]) + done == rest.enemies + ([o.enemy] + done);
    assert shots + (WithShot([], o) + rest.shots) == WithShot(shots, o) + rest.shots;
  }

  /** The loop of update_enemies, updating each enemy in place. */
  method EnemyPassLoop(g: Layout, p: Player, es: seq<Enemy>, steer: seq<Steering>, now: real, dt: real)
    returns (r: EnemyPass)
    requires |steer| == |es| && p.shield >= 0
    ensures r == Enemies(g, p, es, steer, now, dt)
  {
    var enemies := es;
    var shots: seq<EnemyBullet> := [];
    var player := p;
    var fatal := false;
    ghost var done: seq<Enemy> := [];
    var i := |es|;
    assert es[..i] == es && steer[..i] == steer;
    while i > 0
      invariant 0 <= i <= |es|
      invariant enemies == es[..i] + done
      invariant player.shield >= 0
      invariant Enemies(g, p, es, steer, now, dt)
             == ResumeEnemies(Enemies(g, player, es[..i], steer[..i], now, dt), done, shots, fatal)
    {
      i := i - 1;
      SliceSnoc(es, i);
      var o := EnemyStep(g, player, enemies[i], steer[i], now, dt);
      SeqReplace(es[..i], es[i], o.enemy, done);
      EnemiesUnfold(g, player, es, steer, now, dt, i);
      ResumeEnemiesShift(Enemies(g, o.player, es[..i], steer[..i], now, dt), o, done, shots, fatal);
      enemies := enemies[i := o.enemy];
      if o.shot.Some? {
        shots := shots + [o.shot.value];
      }
      player := o.player;
      fatal := fatal || o.fatal;
      done := [o.enemy] + done;
    }
    assert es[..0] == [] && steer[..0] == [];
    return EnemyPass(enemies, shots, player, fatal);
  }

  // ---------------------------------------------------------------------
  // Enemy bullets (project.py:1078-1104)

  function AdvanceShot(b: EnemyBullet, dt: real): EnemyBullet
  {
    b.(x := b.x + b.dx * dt, y := b.y + b.dy * dt)
  }

  /** The outcome of one (already moved) enemy bullet. */
  datatype ShotOutcome = ShotOutcome(keep: bool, player: Player, fatal: bool)

  /**
   * An enemy bullet inside a wall (or, which is the same, outside the
   * level) vanishes; one within the player's radius (in the horizontal
   * plane) deals its damage and vanishes.
   */
  function ShotStep(g: Layout, b: EnemyBullet, p: Player): (o: ShotOutcome)
    requires p.shield >= 0
    ensures o.keep ==> InBounds(g, b.x, b.y) && !IsWall(g, b.x, b.y)
    ensures OnlyHurt(p, o.player) && (o.fatal ==> o.player.health == 0)
    ensures p.health > 0 ==> (o.fatal <==> o.player.health == 0)
  {
    if IsWall(g, b.x, b.y) || !InBounds(g, b.x, b.y) then ShotOutcome(false, p, false)
    else if DistSq(b.x, b.y, p.x, p.y) < Square(PLAYER_RADIUS) then
      var h := ApplyDamage(p, b.damage);
      HitOnlyHurts(p, b.damage);
      ShotOutcome(false, h.player, h.fatal)
    else ShotOutcome(true, p, false)
  }

  /**
   * An enemy bullet stays in flight exactly when it is outside the walls
   * and out of the player's radius; one in a wall leaves the player alone,
   * and one that reaches the player deals its damage, shield first.
   */
  lemma ShotStepEffect(g: Layout, b: EnemyBullet, p: Player)
    requires p.shield >= 0
    ensures var o := ShotStep(g, b, p);
      && (o.keep <==> !IsWall(g, b.x, b.y) && DistSq(b.x, b.y, p.x, p.y) >= Square(PLAYER_RADIUS))
      && (o.keep || IsWall(g, b.x, b.y) ==> o.player == p && !o.fatal)
      && (!IsWall(g, b.x, b.y) && DistSq(b.x, b.y, p.x, p.y) < Square(PLAYER_RADIUS) ==>
            ApplyDamage(p, b.damage) == Hit(o.player, o.fatal))
  {
  }

  datatype ShotPass = ShotPass(bullets: seq<EnemyBullet>, player: Player, fatal: bool)

  /**
   * The enemy-bullet loop of update_bullets. Bullets vanish but never
   * appear, every survivor is inside the level and outside the walls, the
   * player is only hurt, and a player alive at the start has died exactly
   * when some hit was fatal.
   */
  function EnemyShots(g: Layout, dt: real, bs: seq<EnemyBullet>, p: Player): (r: ShotPass)
    requires p.shield >= 0
    ensures |r.bullets| <= |bs|
    ensures forall i :: 0 <= i < |r.bullets| ==> InBounds(g, r.bullets[i].x, r.bullets[i].y) && !IsWall(g, r.bullets[i].x, r.bullets[i].y)
    ensures OnlyHurt(p, r.player)
    ensures p.health > 0 ==> (r.fatal <==> r.player.health == 0)
    decreases |bs|
  {
    if bs == [] then ShotPass([], p, false)
    else
      var b := AdvanceShot(bs[|bs| - 1], dt);
      var o := ShotStep(g, b, p);
      var rest := EnemyShots(g, dt, bs[..|bs| - 1], o.player);
      ShotPass(rest.bullets + (if o.keep then [b] else []), rest.player, o.fatal || rest.fatal)
  }

  function ResumeShots(rest: ShotPass, done: seq<EnemyBullet>, fatal: bool): ShotPass
  {
    ShotPass(rest.bullets + done, rest.player, fatal || rest.fatal)
  }

  function KeptShot(o: ShotOutcome, b: EnemyBullet): seq<EnemyBullet>
  {
    if o.keep then [b] else []
  }

  /** One step of EnemyShots on the prefix that ends at index i. */
  lemma ShotsUnfold(g: Layout, dt: real, bs: seq<EnemyBullet>, p: Player, i: nat)
    requires i < |bs| && p.shield >= 0
    ensures var b := AdvanceShot(bs[i], dt);
      var o := ShotStep(g, b, p);
      EnemyShots(g, dt, bs[..i + 1], p)
      == ShotPass(EnemyShots(g, dt, bs[..i], o.player).bullets + KeptShot(o, b),
                  EnemyShots(g, dt, bs[..i], o.player).player,
                  o.fatal || EnemyShots(g, dt, bs[..i], o.player).fatal)
  {
    assert bs[..i + 1][..i] == bs[..i];
  }

  lemma ResumeShotsShift(rest: ShotPass, o: ShotOutcome, b: EnemyBullet, done: seq<EnemyBullet>, fatal: bool)
    ensures ResumeShots(ShotPass(rest.bullets + KeptShot(o, b), rest.player, o.fatal || rest.fatal), done, fatal)
         == ResumeShots(rest, KeptShot(o, b) + done, fatal || o.fatal)
  {
    assert (rest.bullets + KeptShot(o, b)) + done == rest.bullets + (KeptShot(o, b) + done);
  }

  /** The enemy-bullet loop, popping bullets in place. */
  method EnemyShotPass(g: Layout, dt: real, bs: seq<EnemyBullet>, p: Player) returns (r: ShotPass)
    requires p.shield >= 0
    ensures r == EnemyShots(g, dt, bs, p)
  {
    var bullets := bs;
    var player := p;
    var fatal := false;
    ghost var done: seq<EnemyBullet> := [];
    var i := |bs|;
    assert bs[..i] == bs;
    while i > 0
      invariant 0 <= i <= |bs|
      invariant bullets == bs[..i] + done
      invariant player.shield >= 0
      invariant EnemyShots(g, dt, bs, p) == ResumeShots(EnemyShots(g, dt, bs[..i], player), done, fatal)
    {
      i := i - 1;
      SliceSnoc(bs, i);
      assert bullets == bs[..i] + [bs[i]] + done;
      var b := AdvanceShot(bullets[i], dt);
      var o := ShotStep(g, b, player);
      ShotsUnfold(g, dt, bs, player, i);
      ResumeShotsShift(EnemyShots(g, dt, bs[..i], o.player), o, b, done, fatal);
      if o.keep {
        SeqReplace(bs[..i], bs[i], b, done);
        bullets := bullets[i := b];
        done := [b] + done;
      } else {
        SeqRemove(bs[..i], bs[i], done);
        bullets := bullets[..i] + bullets[i + 1..];
        assert [] + done == done;
      }
      player := o.player;
      fatal := fatal || o.fatal;
    }
    assert bs[..0] == [];
    return ShotPass(bullets, player, fatal);
  }

  /** A bullet that left the level is always inside a "wall", so the out-of-bounds branches never remove anything. */
  lemma OutOfBoundsIsWall(g: Layout, x: real, y: real)
    requires !InBounds(g, x, y)
    ensures IsWall(g, x, y)
  {
  }

  // ---------------------------------------------------------------------
  // Powerups (project.py:1107-1127)

  function Spin(u: Powerup, dt: real): (v: Powerup)
    ensures v == u.(rotation := v.rotation) && 0.0 <= v.rotation < 360.0
  {
    u.(rotation := WrapDegrees(u.rotation + POWERUP_SPIN * dt))
  }

  /** The player stands strictly within pickup range (horizontal distance). */
  predicate InReach(p: Player, u: Powerup)
  {
    DistSq(p.x, p.y, u.x, u.y) < Square(POWERUP_PICKUP_RADIUS)
  }

  datatype PowerupPass = PowerupPass(powerups: seq<Powerup>, player: Player)

  /** The loop of update_powerups, from the last powerup to the first. */
  function Powerups(p: Player, us: seq<Powerup>, dt: real): (r: PowerupPass)
    ensures r.player == p.(health := r.player.health, ammo := r.player.ammo)
    ensures PlayerOk(p) ==> PlayerOk(r.player) && r.player.health >= p.health && r.player.ammo >= p.ammo
    decreases |us|
  {
    if us == [] then PowerupPass([], p)
    else
      var u := Spin(us[|us| - 1], dt);
      if InReach(p, u) then
        var rest := Powerups(PickupEffect(p, u.kind), us[..|us| - 1], dt);
        rest
      else
        var rest := Powerups(p, us[..|us| - 1], dt);
        PowerupPass(rest.powerups + [u], rest.player)
  }

  /** How many powerups of the list of one kind lie within pickup reach of the point (x, y). */
  function PacksInReach(x: real, y: real, us: seq<Powerup>, kind: PowerupKind): nat
    decreases |us|
  {
    if us == [] then 0
    else
      var u := us[|us| - 1];
      PacksInReach(x, y, us[..|us| - 1], kind)
      + (if u.kind == kind && DistSq(x, y, u.x, u.y) < Square(POWERUP_PICKUP_RADIUS) then 1 else 0)
  }

  /**
   * Over the whole pass, every health pack in reach adds 20 health and every
   * ammo pack in reach 10 rounds, capped at the maximum, whatever the order
   * in which they are collected.
   */
  lemma {:induction false} PowerupsRefill(p: Player, us: seq<Powerup>, dt: real)
    requires PlayerOk(p)
    ensures Powerups(p, us, dt).player.health
      == Min(p.maxHealth, p.health + HEAL_AMOUNT * PacksInReach(p.x, p.y, us, HealthPack))
    ensures Powerups(p, us, dt).player.ammo
      == Min(p.maxAmmo, p.ammo + AMMO_AMOUNT * PacksInReach(p.x, p.y, us, AmmoPack))
    decreases |us|
  {
    if us != [] {
      var u := Spin(us[|us| - 1], dt);
      if InReach(p, u) {
        var q := PickupEffect(p, u.kind);
        PowerupsRefill(q, us[..|us| - 1], dt);
      } else {
        PowerupsRefill(p, us[..|us| - 1], dt);
      }
    }
  }

  /** The powerups left after a pass, written front to back as an independent reference. */
  function Unclaimed(p: Player, us: seq<Powerup>, dt: real): seq<Powerup>
  {
    if us == [] then []
    else (if InReach(p, us[0]) then [] else [Spin(us[0], dt)]) + Unclaimed(p, us[1..], dt)
  }

  lemma {:induction false} UnclaimedSnoc(p: Player, us: seq<Powerup>, u: Powerup, dt: real)
    ensures Unclaimed(p, us + [u], dt) == Unclaimed(p, us, dt) + (if InReach(p, u) then [] else [Spin(u, dt)])
    decreases |us|
  {
    if us == [] {
      assert [u][1..] == [];
    } else {
      assert (us + [u])[1..] == us[1..] + [u];
      UnclaimedSnoc(p, us[1..], u, dt);
    }
  }

  /**
   * The powerups that survive are exactly the ones out of the player's
   * reach, in their original order and spun, and every one in reach was
   * collected.
   */
  lemma {:induction false} PowerupsUnclaimed(p: Player, us: seq<Powerup>, dt: real)
    ensures Powerups(p, us, dt).powerups == Unclaimed(p, us, dt)
    decreases |us|
  {
    if us != [] {
      var k := |us| - 1;
      assert us == us[..k] + [us[k]];
      UnclaimedSnoc(p, us[..k], us[k], dt);
      var u := Spin(us[k], dt);
      if InReach(p, u) {
        PowerupsUnclaimed(PickupEffect(p, u.kind), us[..k], dt);
        UnclaimedSamePlace(p, PickupEffect(p, u.kind), us[..k], dt);
      } else {
        PowerupsUnclaimed(p, us[..k], dt);
      }
    }
  }

  /** Which powerups are in reach depends only on where the player stands. */
  lemma {:induction false} UnclaimedSamePlace(p: Player, q: Player, us: seq<Powerup>, dt: real)
    requires p.x == q.x && p.y == q.y
    ensures Unclaimed(p, us, dt) == Unclaimed(q, us, dt)
    decreases |us|
  {
    if us != [] {
      UnclaimedSamePlace(p, q, us[1..], dt);
    }
  }

  function ResumePowerups(rest: PowerupPass, done: seq<Powerup>): PowerupPass
  {
    PowerupPass(rest.powerups + done, rest.player)
  }

  /** The loop of update_powerups, popping collected powerups in place. */
  method PowerupPassLoop(p: Player, us: seq<Powerup>, dt: real) returns (r: PowerupPass)
    ensures r == Powerups(p, us, dt)
  {
    var powerups := us;
    var player := p;
    ghost var done: seq<Powerup> := [];
    var i := |us|;
    assert us[..i] == us;
    while i > 0
      invariant 0 <= i <= |us|
      invariant powerups == us[..i] + done
      invariant Powerups(p, us, dt) == ResumePowerups(Powerups(player, us[..i], dt), done)
    {
      assert us[..i][..i - 1] == us[..i - 1];
      i := i - 1;
      assert powerups[..i] == us[..i] && powerups[i + 1..] == done;
      var u := Spin(powerups[i], dt);
      powerups := powerups[i := u];
      if DistSq(player.x, player.y, u.x, u.y) < Square(POWERUP_PICKUP_RADIUS) {
        player := PickupEffect(player, u.kind);
        powerups := powerups[..i] + powerups[i + 1..];
      } else {
        done := [u] + done;
      }
    }
    assert us[..0] == [];
    return PowerupPass(powerups, player);
  }
}
