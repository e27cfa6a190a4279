/**
 * The phase flow of the game (project.py:1130-1171, 1285-1336): playing a
 * level, the level-complete screen, the upgrade shop, and game over (lost
 * or won). The source spreads this over the flags `level_complete`,
 * `upgrading` and `game_over`; here it is one explicit phase.
 */
module Phases {
  import opened Levels
  import opened Entities

  /**
   * The phase of the game. Game over covers both a death and a win (level
   * past the last layout).
   */
  datatype Phase = Playing | LevelComplete | Upgrading | GameOver

  /** The keys keyboard_down reacts to: space, R (either case), a digit, anything else. */
  datatype Key = Space | RestartKey | Digit(d: int) | OtherKey

  /** What a key asks the world to reload afterwards: nothing, the level (reset_level), or the game (reset_game). */
  datatype Reload = Stay | ReloadLevel | ReloadGame

  /** The part of the world the phase logic reads and writes. */
  datatype Meta = Meta(level: int, phase: Phase, points: int, player: Player)

  datatype Step = Step(meta: Meta, reload: Reload)

  // ---------------------------------------------------------------------
  // handle_upgrade_selection (project.py:1285-1336)

  /** The price of upgrade 1 (fire rate), 2 (ammo), 3 (health) or 4 (shield). */
  function UpgradeCost(choice: int): (c: int)
    requires 1 <= choice <= 4
    ensures 30 <= c <= 80
  {
    match choice
    case 1 => 50
    case 2 => 30
    case 3 => 40
    case _ => 80
  }

  /** The effect on the player of one purchased upgrade. */
  function Upgrade(p: Player, choice: int): Player
    requires 1 <= choice <= 4
  {
    match choice
    case 1 => p.(fireRate := MaxReal(MIN_FIRE_RATE, p.fireRate * 0.8))
    case 2 => p.(maxAmmo := p.maxAmmo + 10, ammo := p.maxAmmo + 10)
    case 3 => p.(maxHealth := p.maxHealth + 25, health := p.maxHealth + 25)
    case _ => p.(maxShield := p.maxShield + 50, shield := p.maxShield + 50)
  }

  /**
   * Each upgrade improves exactly one stat: the fire interval shrinks by a
   * fifth but not below 0.1, or a maximum grows (ammo by 10, health by 25,
   * shield by 50) and the stat is refilled to it. Nothing else about the
   * player changes, and the stats stay in their ranges.
   */
  lemma UpgradeEffect(p: Player, choice: int)
    requires 1 <= choice <= 4
    ensures var q := Upgrade(p, choice);
      && (choice == 1 ==> q == p.(fireRate := q.fireRate) && q.fireRate >= MIN_FIRE_RATE
                          && (p.fireRate * 0.8 >= MIN_FIRE_RATE ==> q.fireRate == p.fireRate * 0.8)
                          && (p.fireRate * 0.8 < MIN_FIRE_RATE ==> q.fireRate == MIN_FIRE_RATE))
      && (choice == 2 ==> q == p.(maxAmmo := q.maxAmmo, ammo := q.ammo) && q.maxAmmo == p.maxAmmo + 10 && q.ammo == q.maxAmmo)
      && (choice == 3 ==> q == p.(maxHealth := q.maxHealth, health := q.health) && q.maxHealth == p.maxHealth + 25 && q.health == q.maxHealth)
      && (choice == 4 ==> q == p.(maxShield := q.maxShield, shield := q.shield) && q.maxShield == p.maxShield + 50 && q.shield == q.maxShield)
      && (PlayerOk(p) ==> PlayerOk(q) && q.fireRate <= p.fireRate)
  {
  }

  /**
   * Going on to the next level: past the last layout that is the win, and
   * the game is over; otherwise the next level is loaded and played.
   */
  function AdvanceLevel(m: Meta): (s: Step)
    ensures s.meta == m.(level := m.level + 1, phase := s.meta.phase)
    ensures m.level + 1 > NUM_LEVELS ==> s.meta.phase == GameOver && s.reload == Stay
    ensures m.level + 1 <= NUM_LEVELS ==> s.meta.phase == Playing && s.reload == ReloadLevel
  {
    var next := m.level + 1;
    if next > NUM_LEVELS then Step(m.(level := next, phase := GameOver), Stay)
    else Step(m.(level := next, phase := Playing), ReloadLevel)
  }

  /**
   * handle_upgrade_selection: a choice outside 1-4 is ignored; an
   * affordable upgrade is paid for and applied, and the game goes on to the
   * next level; an unaffordable one changes nothing.
   */
  function SelectUpgrade(m: Meta, choice: int): Step
  {
    if !(1 <= choice <= 4) then Step(m, Stay)
    else if m.points >= UpgradeCost(choice) then
      AdvanceLevel(m.(points := m.points - UpgradeCost(choice), player := Upgrade(m.player, choice)))
    else Step(m, Stay)
  }

  /**
   * A purchase is gated by the points: with too few nothing changes at all;
   * with enough, the points drop by exactly the cost (50, 30, 40 or 80 for
   * choices 1 to 4), the player gets the
   * upgrade and the level goes up by one.
   */
  lemma UpgradeGated(m: Meta, choice: int)
    requires 1 <= choice <= 4
    ensures m.points < UpgradeCost(choice) ==> SelectUpgrade(m, choice) == Step(m, Stay)
    ensures m.points >= UpgradeCost(choice) ==>
      var s := SelectUpgrade(m, choice);
      && s.meta.points == m.points - UpgradeCost(choice) >= 0
      && s.meta.points == m.points - [50, 30, 40, 80][choice - 1]
      && s.meta.player == Upgrade(m.player, choice)
      && s.meta.level == m.level + 1
      && s.reload != ReloadGame
  {
  }

  // ---------------------------------------------------------------------
  // The phase branch of keyboard_down (project.py:1145-1171)

  /**
   * Space moves from the level-complete screen to the shop and from the
   * shop to the next level without buying; R restarts a finished game; a
   * digit from 1 to 4 buys an upgrade in the shop. Every other key, and
   * every key in another phase, changes nothing.
   */
  function KeyDown(m: Meta, k: Key): Step
  {
    match k
    case Space =>
      if m.phase == LevelComplete then Step(m.(phase := Upgrading), Stay)
      else if m.phase == Upgrading then AdvanceLevel(m)
      else Step(m, Stay)
    case RestartKey =>
      if m.phase == GameOver then Step(m, ReloadGame) else Step(m, Stay)
    case Digit(d) =>
      if m.phase == Upgrading && 1 <= d <= 4 then SelectUpgrade(m, d) else Step(m, Stay)
    case OtherKey => Step(m, Stay)
  }

  /** Keys never affect a level in play (movement and repair keys are read by the frame update instead). */
  lemma PlayingIgnoresKeys(m: Meta, k: Key)
    requires m.phase == Playing
    ensures KeyDown(m, k) == Step(m, Stay)
  {
  }

  /** Game over stays game over, and nothing changes, until R restarts the game. */
  lemma GameOverSticky(m: Meta, k: Key)
    requires m.phase == GameOver
    ensures k != RestartKey ==> KeyDown(m, k) == Step(m, Stay)
    ensures k == RestartKey ==> KeyDown(m, k) == Step(m, ReloadGame)
  {
  }

  /**
   * The phase moves only along the source's arrows: level complete to shop,
   * shop to the next level or to game over, and game over to a new game.
   * The level rises only on leaving the shop, and then by exactly one. Each
   * arrow is also taken: space on the level-complete screen opens the shop,
   * space in the shop goes on to the next level without charging anything,
   * and a digit from 1 to 4 in the shop is a purchase.
   */
  lemma KeyDownTransitions(m: Meta, k: Key)
    ensures m.phase == LevelComplete && k == Space ==> KeyDown(m, k) == Step(m.(phase := Upgrading), Stay)
    ensures m.phase == Upgrading && k == Space ==>
      && KeyDown(m, k).meta == m.(level := m.level + 1, phase := KeyDown(m, k).meta.phase)
      && (KeyDown(m, k).meta.phase == Playing <==> m.level + 1 <= NUM_LEVELS)
      && (KeyDown(m, k).reload == ReloadLevel <==> m.level + 1 <= NUM_LEVELS)
    ensures m.phase == Upgrading && k.Digit? && 1 <= k.d <= 4 ==> KeyDown(m, k) == SelectUpgrade(m, k.d)
    ensures var s := KeyDown(m, k);
      && (s.meta.phase != m.phase ==>
            || (m.phase == LevelComplete && s.meta.phase == Upgrading)
            || (m.phase == Upgrading && (s.meta.phase == Playing || s.meta.phase == GameOver)))
      && (s.meta.level != m.level ==> m.phase == Upgrading && s.meta.level == m.level + 1)
      && (s.reload == ReloadGame <==> m.phase == GameOver && k == RestartKey)
      && (s.reload == ReloadLevel ==> m.phase == Upgrading && s.meta.phase == Playing && s.meta.level <= NUM_LEVELS)
  {
  }

  /**
   * The win condition: leaving the shop from the last level ends the game,
   * and leaving it from an earlier one starts the next level.
   */
  lemma WinCondition(m: Meta, k: Key)
    requires m.phase == Upgrading
    requires KeyDown(m, k).meta.level == m.level + 1
    ensures KeyDown(m, k).meta.phase == GameOver <==> m.level + 1 > NUM_LEVELS
    ensures KeyDown(m, k).meta.phase == Playing <==> m.level + 1 <= NUM_LEVELS
  {
  }

  /**
   * Points never go negative, and they change only by a purchase, which
   * costs at least 30.
   */
  lemma PointsStayNonNegative(m: Meta, k: Key)
    requires m.points >= 0
    ensures KeyDown(m, k).meta.points >= 0
    ensures KeyDown(m, k).meta.points <= m.points
    ensures KeyDown(m, k).meta.points != m.points ==> m.points - KeyDown(m, k).meta.points >= 30
  {
  }

  /** The phase logic keeps the player's stats in range and never moves the player. */
  lemma KeyDownKeepsPlayer(m: Meta, k: Key)
    requires PlayerOk(m.player)
    ensures PlayerOk(KeyDown(m, k).meta.player)
    ensures var q := KeyDown(m, k).meta.player; q.x == m.player.x && q.y == m.player.y && q.z == m.player.z
    ensures m.player.health > 0 ==> KeyDown(m, k).meta.player.health > 0
  {
    match k
    case Digit(d) =>
      if m.phase == Upgrading && 1 <= d <= 4 {
        UpgradeEffect(m.player, d);
      }
    case _ =>
  }
}
