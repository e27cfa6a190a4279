/**
 * Concrete walks through the rules: one shot, a scout destroyed by two
 * bullets, contact damage with and without a shield, the bonus for a
 * completed level, and the shop's prices.
 */
module Scenarios {
  import opened Levels
  import opened Entities
  import opened Passes
  import opened Repairs
  import opened Phases

  /**
   * A fresh player somewhere on the floor, with a full magazine of 20 and
   * the fire interval elapsed, fires: one round is spent and one bullet
   * leaves the muzzle with the aimed velocity.
   */
  lemma OneShot(x: real, y: real, now: real, velocity: Vec3)
    requires now >= INITIAL_PLAYER.fireRate
    ensures var p := INITIAL_PLAYER.(x := x, y := y);
      var s := FireGun(false, p, now, velocity);
      && s.player.ammo == 19 && s.player.lastShotTime == now
      && s.bullets == [Bullet(x, y, MUZZLE_HEIGHT, velocity.x, velocity.y, velocity.z)]
  {
  }

  /**
   * A scout (health 20) struck twice: the first bullet leaves it at 5 and
   * earns nothing; the second destroys it, earns its 10 points once, and
   * drops one powerup where it stood.
   */
  lemma ScoutTwoHits(x: real, y: real, drops: nat -> PowerupKind, next: nat)
    ensures var scout := NewEnemy(Scout, x, y);
      var first := Strike([scout], 0, drops, next);
      var second := Strike(first.enemies, 0, drops, first.next);
      && first.enemies == [scout.(health := 5)] && first.gain == 0 && first.drops == []
      && second.enemies == [] && second.gain == 10 && second.drops == [DropAt(drops(next), x, y)]
      && first.gain + second.gain == Info(Scout).points
  {
    var scout := NewEnemy(Scout, x, y);
    StrikeEffect([scout], 0, drops, next);
    var first := Strike([scout], 0, drops, next);
    assert first.enemies == [scout.(health := 5)];
    StrikeEffect(first.enemies, 0, drops, first.next);
  }

  /**
   * Contact damage: a tank deals 10 (ENEMY_TYPES), so a player at 100 health
   * and no shield drops to 90. A 15-point hit lands on health in full (85)
   * with no shield, and with a shield of 10 empties the shield and takes
   * the remaining 5 off health (95).
   */
  lemma ContactDamage(p: Player)
    requires p.health == 100 && p.shield == 0
    ensures ApplyDamage(p, Info(Tank).damage) == Hit(p.(health := 90), false)
    ensures ApplyDamage(p, 15) == Hit(p.(health := 85), false)
    ensures ApplyDamage(p.(shield := 10), 15) == Hit(p.(shield := 0, health := 95), false)
  {
  }

  /**
   * Repairing the last system of level 2 completes it and pays 100 into
   * both score and points, exactly once: a further check changes nothing.
   */
  lemma LevelBonusOnce(ss: seq<RepairSystem>, score: int, points: int)
    requires |ss| == 3 && ss[0].repaired && ss[1].repaired
    ensures var done := CompleteLevel(MarkRepaired(ss, 2), 2, Completion(false, score, points));
      && done == Completion(true, score + 100, points + 100)
      && CompleteLevel(MarkRepaired(ss, 2), 2, done) == done
  {
    LastRepairCompletes(ss, 2, 2, score, points);
  }

  /**
   * The shop's prices: 50 points for a faster gun, 30 for more ammo, 40
   * for more health and 80 for more shield. A player holding exactly the
   * price of a choice buys it and is left with nothing; one point short,
   * the key does nothing.
   */
  lemma ShopPrices(m: Meta)
    ensures UpgradeCost(1) == 50 && UpgradeCost(2) == 30 && UpgradeCost(3) == 40 && UpgradeCost(4) == 80
    ensures forall choice :: 1 <= choice <= 4 ==>
      && SelectUpgrade(m.(points := UpgradeCost(choice)), choice).meta.points == 0
      && SelectUpgrade(m.(points := UpgradeCost(choice) - 1), choice) == Step(m.(points := UpgradeCost(choice) - 1), Stay)
  {
  }
}
