/**
 * Two places where project.py does something its authors evidently did not
 * mean, each written out as the code has it, with an input that shows the
 * discrepancy, next to the behaviour the rest of the model uses instead.
 */
module Findings {
  import opened Levels
  import opened Entities
  import opened Passes
  import opened Phases

  // ---------------------------------------------------------------------
  // The contact-cooldown table of update_enemies (project.py:192, 1022-1031,
  // 1068-1069), keyed by the enemy's position in the list.

  /** last_player_enemy_collision_time: list position to time of the last contact damage. */
  type CooldownTable = map<nat, real>

  /** `.get(i, 0)`: a position never recorded counts as a contact at time 0. */
  function LastContactAt(t: CooldownTable, i: nat): real
  {
    if i in t then t[i] else 0.0
  }

  /** The enemy at position i may deal contact damage at `now` (its distance aside). */
  predicate MayContactAt(t: CooldownTable, i: nat, now: real)
  {
    now - LastContactAt(t, i) > ENEMY_CONTACT_INTERVAL
  }

  /** A contact by the enemy at position i at `now` is recorded under i. */
  function RecordContactAt(t: CooldownTable, i: nat, now: real): CooldownTable
  {
    t[i := now]
  }

  /**
   * The enemy at position j is destroyed: its entry is deleted, but the
   * entries of the enemies behind it keep their keys although those enemies
   * each move one position forward in the list.
   */
  function ForgetKilledAt(t: CooldownTable, j: nat): CooldownTable
  {
    t - {j}
  }

  /**
   * As written, a kill hands cooldowns to the wrong enemies. Enemies A and B
   * stand at positions 0 and 1; B touches the player at time 10 and is
   * recorded under 1. A bullet then destroys A, and B moves to position 0,
   * which has no entry: at time 10.1, a tenth of a second after its last
   * contact, B may deal contact damage again, while whatever enemy now
   * stands at position 1 is held back by B's time.
   */
  lemma TableCooldownShifts()
    ensures var before := RecordContactAt(map[], 1, 10.0);
      var after := ForgetKilledAt(before, 0);
      && !MayContactAt(before, 1, 10.1)
      && MayContactAt(after, 0, 10.1)
      && !MayContactAt(after, 1, 10.1)
      && 10.1 - 10.0 <= ENEMY_CONTACT_INTERVAL
  {
  }

  /** The position in the old list of the enemy at position i after the one at j is removed. */
  function Survivor(i: nat, j: nat): nat
  {
    if i < j then i else i + 1
  }

  /**
   * With the time kept on each enemy (Enemy.lastContactTime), a kill leaves
   * every other enemy's cooldown with that enemy: the survivor now at
   * position i has the contact time, and so the same eligibility to touch
   * the player, as the enemy it was before the removal.
   */
  lemma KillKeepsContactTimes(es: seq<Enemy>, j: nat, drops: nat -> PowerupKind, next: nat, p: Player, now: real)
    requires j < |es| && es[j].health <= BULLET_DAMAGE
    ensures var r := Strike(es, j, drops, next).enemies;
      && |r| == |es| - 1
      && forall i :: 0 <= i < |r| ==>
           && r[i] == es[Survivor(i, j)]
           && r[i].lastContactTime == es[Survivor(i, j)].lastContactTime
           && (Touches(p, r[i], now) <==> Touches(p, es[Survivor(i, j)], now))
  {
    StrikeEffect(es, j, drops, next);
    var r := es[..j] + es[j + 1..];
    forall i | 0 <= i < |r|
      ensures r[i] == es[Survivor(i, j)]
    {
      if i < j {
        assert r[i] == es[..j][i];
      } else {
        assert r[i] == es[j + 1..][i - j];
      }
    }
  }

  /** A strike that does not destroy the enemy keeps every contact time where it was. */
  lemma WoundKeepsContactTimes(es: seq<Enemy>, j: nat, drops: nat -> PowerupKind, next: nat)
    requires j < |es| && es[j].health > BULLET_DAMAGE
    ensures var r := Strike(es, j, drops, next).enemies;
      && |r| == |es|
      && forall i :: 0 <= i < |r| ==> r[i].lastContactTime == es[i].lastContactTime
  {
    StrikeEffect(es, j, drops, next);
  }

  // ---------------------------------------------------------------------
  // The phase flags level_complete, upgrading and game_over
  // (project.py:189-190, 1130-1141, 1145-1171, 1422-1437).

  /** The three flags the source keeps instead of one phase. */
  datatype Flags = Flags(levelComplete: bool, upgrading: bool, gameOver: bool)

  /**
   * One idle frame as written: the game updates only with no flag set, and
   * then update_player may set level_complete (its last repair) and
   * update_enemies or update_bullets, which still run in the same frame,
   * may set game_over (a fatal hit).
   */
  function FlagFrame(f: Flags, completes: bool, fatal: bool): Flags
  {
    if !f.gameOver && !f.levelComplete && !f.upgrading then
      f.(levelComplete := f.levelComplete || completes, gameOver := f.gameOver || fatal)
    else f
  }

  /**
   * Space as written: from the level-complete screen to the shop, and from
   * the shop to the next level (the win past the last one). Neither
   * branch looks at game_over.
   */
  function FlagSpace(f: Flags, lastLevel: bool): Flags
  {
    if f.levelComplete then f.(levelComplete := false, upgrading := true)
    else if f.upgrading then f.(upgrading := false, gameOver := f.gameOver || lastLevel)
    else f
  }

  /**
   * As written, a frame in which the last system is repaired and the player
   * is then killed sets both level_complete and game_over; space then opens
   * the shop for the dead player, who may go on to the next level while
   * game over stays set.
   */
  lemma FlagsCompleteAndDead()
    ensures var f := FlagFrame(Flags(false, false, false), true, true);
      && f.levelComplete && f.gameOver
      && FlagSpace(f, false) == Flags(false, true, true)
      && FlagSpace(FlagSpace(f, false), false) == Flags(false, false, true)
  {
  }

  /**
   * With one phase, a fatal hit in the frame that completes the level leaves
   * the game over (Game.World.UpdateEnemies and MoveEnemyBullets set
   * GameOver whatever the phase), and from game over no key but R changes
   * anything: the shop stays closed to a dead player.
   */
  lemma DeadPlayerNeverShops(m: Meta, k: Key)
    requires m.phase == GameOver
    ensures KeyDown(m, k).meta.phase != Upgrading
    ensures KeyDown(m, k).meta.level == m.level && KeyDown(m, k).meta.points == m.points
    ensures KeyDown(m, k).reload != ReloadLevel
  {
    GameOverSticky(m, k);
  }
}
