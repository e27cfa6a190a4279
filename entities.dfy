/**
 * The entities of the world (player, enemies, bullets, powerups, repairable
 * systems), the enemy type catalogue, and the rules that act on one entity
 * at a time: damage resolution, powerup effects, firing and wall sliding.
 */
module Entities {
  import opened Levels

  // Gameplay constants (project.py:11-30).
  const PLAYER_RADIUS: real := 25.0
  const BULLET_DAMAGE := 15
  /** Bullets leave the gun 60 * 0.55 units above the player's feet. */
  const MUZZLE_HEIGHT: real := 33.0
  const ENEMY_CONTACT_INTERVAL: real := 0.5
  const REPAIR_TIME: real := 5.0
  const POWERUP_PICKUP_RADIUS: real := 30.0
  const SYSTEM_REPAIR_RADIUS: real := 50.0
  const HEAL_AMOUNT := 20
  const AMMO_AMOUNT := 10
  const POWERUP_HEIGHT: real := 15.0
  /** Cosmetic spin of a powerup, in degrees per second. */
  const POWERUP_SPIN: real := 60.0
  const MIN_FIRE_RATE: real := 0.1

  datatype Vec2 = Vec2(x: real, y: real)
  datatype Vec3 = Vec3(x: real, y: real, z: real)

  function DistSq3(x1: real, y1: real, z1: real, x2: real, y2: real, z2: real): real
  {
    Square(x1 - x2) + Square(y1 - y2) + Square(z1 - z2)
  }

  // ---------------------------------------------------------------------
  // Enemy type catalogue (project.py:45-87)

  datatype EnemyKind = Scout | Tank | Sniper | Drone

  /** The static properties shared by every enemy of one type. */
  datatype KindInfo = KindInfo(
    health: int, speed: real, damage: nat, points: nat,
    size: real, radius: real, shootRange: real, fireInterval: real, altitude: real)

  /**
   * ENEMY_TYPES. Every type starts alive, hurts and is worth points; only
   * snipers shoot and only drones hover ("altitude" defaults to 0).
   */
  function Info(k: EnemyKind): (i: KindInfo)
    ensures i.health > 0 && i.damage > 0 && i.points > 0 && i.radius > 0.0
    ensures i.shootRange > 0.0 <==> k == Sniper
    ensures i.altitude > 0.0 <==> k == Drone
  {
    match k
    case Scout => KindInfo(20, 110.0, 5, 10, 15.0, 18.0, 0.0, 0.0, 0.0)
    case Tank => KindInfo(50, 60.0, 10, 20, 30.0, 30.0, 0.0, 0.0, 0.0)
    case Sniper => KindInfo(30, 0.0, 15, 30, 25.0, 22.0, 600.0, 1.5, 0.0)
    case Drone => KindInfo(15, 80.0, 10, 15, 20.0, 20.0, 0.0, 0.0, 100.0)
  }

  // ---------------------------------------------------------------------
  // Records (project.py:176-192, 296-303, 324-338, 380-388, 399, 996-1005, 1251)

  datatype Player = Player(
    x: real, y: real, z: real,
    health: int, maxHealth: int,
    ammo: int, maxAmmo: int,
    fireRate: real,
    shield: int, maxShield: int,
    lastShotTime: real)

  /** The player record as reset_game builds it (project.py:324-338). */
  const INITIAL_PLAYER := Player(0.0, 0.0, 0.0, 100, 100, 20, 20, 0.5, 0, 0, 0.0)

  /** The ranges the source keeps the player's stats in. */
  predicate PlayerOk(p: Player)
  {
    && 0 <= p.health <= p.maxHealth
    && 0 <= p.ammo <= p.maxAmmo
    && 0 <= p.shield <= p.maxShield
    && p.fireRate >= MIN_FIRE_RATE
  }

  /**
   * An enemy. The time of its last contact damage is kept on the enemy
   * itself (0.0 until the first contact, as the source's default).
   */
  datatype Enemy = Enemy(
    kind: EnemyKind, x: real, y: real, z: real, health: int,
    lastShotTime: real, lastContactTime: real)

  /** A player bullet, flying in three dimensions. */
  datatype Bullet = Bullet(x: real, y: real, z: real, dx: real, dy: real, dz: real)

  /** An enemy bullet: flies in the horizontal plane and carries its damage. */
  datatype EnemyBullet = EnemyBullet(x: real, y: real, z: real, dx: real, dy: real, damage: nat)

  datatype PowerupKind = HealthPack | AmmoPack
  datatype Powerup = Powerup(kind: PowerupKind, x: real, y: real, z: real, rotation: real)

  datatype RepairSystem = RepairSystem(x: real, y: real, repaired: bool)

  /** A fresh enemy of a type at a point, as spawn_enemy builds it (project.py:380-388). */
  function NewEnemy(kind: EnemyKind, x: real, y: real): (e: Enemy)
    ensures e.kind == kind && e.x == x && e.y == y && e.z == Info(kind).altitude
    ensures e.health == Info(kind).health > 0
    ensures e.lastShotTime == 0.0 && e.lastContactTime == 0.0
  {
    Enemy(kind, x, y, Info(kind).altitude, Info(kind).health, 0.0, 0.0)
  }

  /** The powerup that spawn_powerup drops at a point (project.py:396-399). */
  function DropAt(kind: PowerupKind, x: real, y: real): Powerup
  {
    Powerup(kind, x, y, POWERUP_HEIGHT, 0.0)
  }

  // ---------------------------------------------------------------------
  // Damage resolution (project.py:1024-1034, 1088-1099)

  datatype Hit = Hit(player: Player, fatal: bool)

  /**
   * Shield absorbs first, health takes only the remainder and is clamped at
   * zero; the hit is fatal exactly when health would reach zero or below.
   * Nothing but shield and health changes.
   */
  function ApplyDamage(p: Player, damage: nat): (h: Hit)
    requires p.shield >= 0
    ensures h.player == p.(shield := p.shield - Min(p.shield, damage),
                           health := Max(0, p.health - (damage - Min(p.shield, damage))))
    ensures h.fatal <==> p.health - (damage - Min(p.shield, damage)) <= 0
  {
    var absorbed := if p.shield > 0 then Min(p.shield, damage) else 0;
    var rest := damage - absorbed;
    var health := if rest > 0 then p.health - rest else p.health;
    if health <= 0 then Hit(p.(shield := p.shield - absorbed, health := 0), true)
    else Hit(p.(shield := p.shield - absorbed, health := health), false)
  }

  /**
   * A hit keeps the player's stats in range, never raises shield or health,
   * and takes from the two together at most the damage dealt, exactly the
   * damage when it is not fatal.
   */
  lemma DamageKeepsRanges(p: Player, damage: nat)
    requires PlayerOk(p)
    ensures var q := ApplyDamage(p, damage).player;
      && PlayerOk(q)
      && 0 <= q.shield <= p.shield && q.health <= p.health
      && (p.shield - q.shield) + (p.health - q.health) <= damage
      && (!ApplyDamage(p, damage).fatal ==> (p.shield - q.shield) + (p.health - q.health) == damage)
      && (ApplyDamage(p, damage).fatal <==> q.health == 0)
  {
  }

  // ---------------------------------------------------------------------
  // Powerup effects (project.py:1117-1126)

  /** A pickup restores a fixed amount, capped at the stat's maximum. */
  function PickupEffect(p: Player, kind: PowerupKind): (q: Player)
    ensures kind == HealthPack ==> q == p.(health := Min(p.maxHealth, p.health + HEAL_AMOUNT))
    ensures kind == AmmoPack ==> q == p.(ammo := Min(p.maxAmmo, p.ammo + AMMO_AMOUNT))
    ensures PlayerOk(p) ==> PlayerOk(q) && q.health >= p.health && q.ammo >= p.ammo
  {
    match kind
    case HealthPack => p.(health := if p.health + HEAL_AMOUNT <= p.maxHealth then p.health + HEAL_AMOUNT else p.maxHealth)
    case AmmoPack => p.(ammo := if p.ammo + AMMO_AMOUNT <= p.maxAmmo then p.ammo + AMMO_AMOUNT else p.maxAmmo)
  }

  /** Python's `a % 360` on a float: the angle brought into [0, 360). */
  function WrapDegrees(a: real): (r: real)
    ensures 0.0 <= r < 360.0
    ensures 0.0 <= a < 360.0 ==> r == a
    ensures 360.0 <= a < 720.0 ==> r == a - 360.0
  {
    a - 360.0 * (a / 360.0).Floor as real
  }

  // ---------------------------------------------------------------------
  // Firing (project.py:1236-1253)

  datatype Shot = Shot(player: Player, bullets: seq<Bullet>)

  /**
   * The left-button branch of the mouse handler. `blocked` says that a
   * paused phase or a repair forbids shooting; `velocity` is the aim
   * direction times BULLET_SPEED. A shot happens exactly when nothing blocks
   * it, there is ammo and the fire interval has elapsed; it costs exactly one
   * round and creates exactly one bullet at the muzzle.
   */
  function FireGun(blocked: bool, p: Player, now: real, velocity: Vec3): (s: Shot)
    ensures |s.bullets| <= 1
    ensures |s.bullets| == 1 <==> !blocked && p.ammo > 0 && now - p.lastShotTime >= p.fireRate
    ensures |s.bullets| == 1 ==>
      && s.player == p.(ammo := p.ammo - 1, lastShotTime := now)
      && s.bullets[0] == Bullet(p.x, p.y, p.z + MUZZLE_HEIGHT, velocity.x, velocity.y, velocity.z)
    ensures |s.bullets| == 0 ==> s.player == p
    ensures PlayerOk(p) ==> PlayerOk(s.player)
  {
    if blocked then Shot(p, [])
    else if p.ammo > 0 && now - p.lastShotTime >= p.fireRate then
      Shot(p.(ammo := p.ammo - 1, lastShotTime := now),
           [Bullet(p.x, p.y, p.z + MUZZLE_HEIGHT, velocity.x, velocity.y, velocity.z)])
    else Shot(p, [])
  }

  // ---------------------------------------------------------------------
  // Wall sliding (project.py:893-903)

  /**
   * Axis-decomposed sliding: the full step if its end point is free, else
   * the x-only step, else the y-only step, else no move. Each axis either
   * takes its whole step or none of it, and a mover that starts outside a
   * wall never ends inside one.
   */
  function SlideMove(g: Layout, x: real, y: real, dx: real, dy: real): (r: Vec2)
    ensures r.x == x || r.x == x + dx
    ensures r.y == y || r.y == y + dy
    ensures !IsWall(g, x + dx, y + dy) ==> r == Vec2(x + dx, y + dy)
    ensures IsWall(g, x + dx, y + dy) && !IsWall(g, x + dx, y) ==> r == Vec2(x + dx, y)
    ensures IsWall(g, x + dx, y + dy) && IsWall(g, x + dx, y) && !IsWall(g, x, y + dy) ==> r == Vec2(x, y + dy)
    ensures IsWall(g, x + dx, y + dy) && IsWall(g, x + dx, y) && IsWall(g, x, y + dy) ==> r == Vec2(x, y)
    ensures !IsWall(g, x, y) ==> !IsWall(g, r.x, r.y)
  {
    if !IsWall(g, x + dx, y + dy) then Vec2(x + dx, y + dy)
    else if !IsWall(g, x + dx, y) then Vec2(x + dx, y)
    else if !IsWall(g, x, y + dy) then Vec2(x, y + dy)
    else Vec2(x, y)
  }
}
