/**
 * The repair sub-state machine of update_player (project.py:906-961) and
 * the level-completion check (project.py:1130-1141). A repair targets one
 * system for as long as the repair key stays held and the player stays
 * within reach of it; five seconds of that repair the system for good.
 */
module Repairs {
  import opened Levels
  import opened Entities

  /**
   * `repairing`, `system_being_repaired` and `repair_timer` together: either
   * no repair is going on, or one is, on the system at index `target` of the
   * level's list, with `timer` seconds accumulated.
   */
  datatype RepairState = Idle | Repairing(target: nat, timer: real)

  /** The squared horizontal distance from (px, py) to the system at index i. */
  function SystemDistSq(ss: seq<RepairSystem>, i: nat, px: real, py: real): real
    requires i < |ss|
  {
    DistSq(px, py, ss[i].x, ss[i].y)
  }

  /** Unrepaired and strictly within reach of (px, py). */
  predicate Candidate(ss: seq<RepairSystem>, i: nat, px: real, py: real)
    requires i < |ss|
  {
    !ss[i].repaired && SystemDistSq(ss, i, px, py) < Square(SYSTEM_REPAIR_RADIUS)
  }

  /**
   * The target the search loop of update_player holds after the first n
   * systems: a candidate replaces the one held only when strictly closer,
   * so the result is the first of the nearest candidates.
   */
  function NearestUpTo(ss: seq<RepairSystem>, px: real, py: real, n: nat): (t: Option<nat>)
    requires n <= |ss|
    ensures t.Some? ==> t.value < n && Candidate(ss, t.value, px, py)
    ensures t.Some? ==> forall k :: 0 <= k < n && Candidate(ss, k, px, py) ==>
      SystemDistSq(ss, t.value, px, py) <= SystemDistSq(ss, k, px, py)
    ensures t.Some? ==> forall k :: 0 <= k < t.value && Candidate(ss, k, px, py) ==>
      SystemDistSq(ss, t.value, px, py) < SystemDistSq(ss, k, px, py)
    ensures t.None? ==> forall k :: 0 <= k < n ==> !Candidate(ss, k, px, py)
  {
    if n == 0 then None
    else
      var t := NearestUpTo(ss, px, py, n - 1);
      var bound := if t.Some? then SystemDistSq(ss, t.value, px, py) else Square(SYSTEM_REPAIR_RADIUS);
      if !ss[n - 1].repaired && SystemDistSq(ss, n - 1, px, py) < bound then Some(n - 1) else t
  }

  function Nearest(ss: seq<RepairSystem>, px: real, py: real): Option<nat>
  {
    NearestUpTo(ss, px, py, |ss|)
  }

  /**
   * An independent statement of which system a repair starts on: an
   * unrepaired system in reach, no farther than any other such system, and
   * strictly nearer than every such system before it in the list.
   */
  predicate IsNearest(ss: seq<RepairSystem>, px: real, py: real, j: nat)
  {
    && j < |ss| && Candidate(ss, j, px, py)
    && (forall k :: 0 <= k < |ss| && Candidate(ss, k, px, py) ==>
          SystemDistSq(ss, j, px, py) <= SystemDistSq(ss, k, px, py))
    && (forall k :: 0 <= k < j && Candidate(ss, k, px, py) ==>
          SystemDistSq(ss, j, px, py) < SystemDistSq(ss, k, px, py))
  }

  /** The search finds exactly the system that IsNearest describes, and finds none only when no system is a candidate. */
  lemma NearestExact(ss: seq<RepairSystem>, px: real, py: real, j: nat)
    ensures Nearest(ss, px, py) == Some(j) <==> IsNearest(ss, px, py, j)
    ensures Nearest(ss, px, py).None? <==> forall k :: 0 <= k < |ss| ==> !Candidate(ss, k, px, py)
  {
    var t := Nearest(ss, px, py);
    if IsNearest(ss, px, py, j) {
      assert t.Some?;
    }
  }

  /** The search loop of update_player that picks a system to repair. */
  method FindRepairTarget(ss: seq<RepairSystem>, px: real, py: real) returns (target: Option<nat>)
    ensures target == Nearest(ss, px, py)
  {
    target := None;
    var closest := Square(SYSTEM_REPAIR_RADIUS);
    var i := 0;
    while i < |ss|
      invariant 0 <= i <= |ss|
      invariant target == NearestUpTo(ss, px, py, i)
      invariant closest == if target.Some? then SystemDistSq(ss, target.value, px, py) else Square(SYSTEM_REPAIR_RADIUS)
    {
      if !ss[i].repaired {
        var dx := px - ss[i].x;
        var dy := py - ss[i].y;
        var d2 := dx * dx + dy * dy;
        assert d2 == SystemDistSq(ss, i, px, py);
        if d2 < closest {
          target := Some(i);
          closest := d2;
        }
      }
      i := i + 1;
    }
  }

  /** The new repair state, and the system whose repair finished if one did. */
  datatype RepairStep = RepairStep(state: RepairState, finished: Option<nat>)

  /**
   * One frame of the repair logic. `held` says that the repair key is down.
   * A repair goes on while the key is held and the player is strictly within
   * reach of its system, and finishes once the timer reaches REPAIR_TIME;
   * anything else interrupts it. With no repair going on, holding the key
   * starts one, with the timer at zero, on the nearest candidate.
   */
  function RepairTick(ss: seq<RepairSystem>, px: real, py: real, held: bool, st: RepairState, dt: real): (o: RepairStep)
    requires st.Repairing? ==> st.target < |ss|
  {
    match st
    case Repairing(t, timer) =>
      if held && SystemDistSq(ss, t, px, py) < Square(SYSTEM_REPAIR_RADIUS) then
        if timer + dt >= REPAIR_TIME then RepairStep(Idle, Some(t))
        else RepairStep(Repairing(t, timer + dt), None)
      else RepairStep(Idle, None)
    case Idle =>
      if held then
        match Nearest(ss, px, py)
        case Some(t) => RepairStep(Repairing(t, 0.0), None)
        case None => RepairStep(Idle, None)
      else RepairStep(Idle, None)
  }

  /**
   * Releasing the key or leaving the system's reach interrupts a repair:
   * the state goes back to no repair (the timer to zero) and nothing is
   * repaired.
   */
  lemma InterruptResets(ss: seq<RepairSystem>, px: real, py: real, held: bool, t: nat, timer: real, dt: real)
    requires t < |ss|
    requires !held || SystemDistSq(ss, t, px, py) >= Square(SYSTEM_REPAIR_RADIUS)
    ensures RepairTick(ss, px, py, held, Repairing(t, timer), dt) == RepairStep(Idle, None)
  {
  }

  /**
   * A repair finishes exactly when its timer (with this frame's time added)
   * reaches REPAIR_TIME while it goes on, and then on its own target; a
   * repair starts only on the nearest candidate and only from no repair,
   * with the timer at zero; a repair in progress keeps its target and adds
   * exactly dt. Both also happen: holding the key with no repair going on
   * and a candidate in reach starts a repair of the nearest one, and a
   * repair held in reach whose timer stays below REPAIR_TIME goes on.
   * With no repair going on and the key released or no candidate in reach,
   * nothing happens.
   */
  lemma RepairTickCases(ss: seq<RepairSystem>, px: real, py: real, held: bool, st: RepairState, dt: real)
    requires st.Repairing? ==> st.target < |ss|
    ensures var o := RepairTick(ss, px, py, held, st, dt);
      && (o.finished.Some? <==>
            st.Repairing? && held && SystemDistSq(ss, st.target, px, py) < Square(SYSTEM_REPAIR_RADIUS)
            && st.timer + dt >= REPAIR_TIME)
      && (o.finished.Some? ==> o.finished.value == st.target && o.state == Idle)
      && (o.state.Repairing? && st.Idle? ==>
            o.state.timer == 0.0 && IsNearest(ss, px, py, o.state.target))
      && (o.state.Repairing? && st.Repairing? ==>
            o.state == Repairing(st.target, st.timer + dt))
      && (st.Idle? && held && (exists k :: 0 <= k < |ss| && Candidate(ss, k, px, py)) ==>
            o.state.Repairing? && o.state.timer == 0.0 && IsNearest(ss, px, py, o.state.target) && o.finished.None?)
      && (st.Idle? && (!held || forall k :: 0 <= k < |ss| ==> !Candidate(ss, k, px, py)) ==>
            o == RepairStep(Idle, None))
      && (st.Repairing? && held && SystemDistSq(ss, st.target, px, py) < Square(SYSTEM_REPAIR_RADIUS)
          && st.timer + dt < REPAIR_TIME ==>
            o == RepairStep(Repairing(st.target, st.timer + dt), None))
  {
    var o := RepairTick(ss, px, py, held, st, dt);
    if st.Idle? {
      NearestExact(ss, px, py, if o.state.Repairing? then o.state.target else 0);
    }
  }

  /**
   * The repair branch of update_player (project.py:906-961) on the values
   * it reads: go on with, finish or interrupt the repair in progress, or
   * search for a system to start on.
   */
  method RepairFrame(ss: seq<RepairSystem>, px: real, py: real, held: bool, st: RepairState, dt: real)
    returns (o: RepairStep)
    requires st.Repairing? ==> st.target < |ss|
    ensures o == RepairTick(ss, px, py, held, st, dt)
  {
    match st
    case Repairing(t, timer) =>
      if held && DistSq(px, py, ss[t].x, ss[t].y) < Square(SYSTEM_REPAIR_RADIUS) {
        if timer + dt >= REPAIR_TIME {
          o := RepairStep(Idle, Some(t));
        } else {
          o := RepairStep(Repairing(t, timer + dt), None);
        }
      } else {
        o := RepairStep(Idle, None);
      }
    case Idle =>
      o := RepairStep(Idle, None);
      if held {
        var target := FindRepairTarget(ss, px, py);
        if target.Some? {
          o := RepairStep(Repairing(target.value, 0.0), None);
        }
      }
  }

  /** set repaired: every flag that was set stays set, the target's is set, and nothing else changes. */
  function MarkRepaired(ss: seq<RepairSystem>, t: nat): (r: seq<RepairSystem>)
    requires t < |ss|
    ensures |r| == |ss| && r[t].repaired
    ensures forall i :: 0 <= i < |ss| ==> r[i] == ss[i].(repaired := r[i].repaired)
    ensures forall i :: 0 <= i < |ss| && ss[i].repaired ==> r[i].repaired
    ensures forall i :: 0 <= i < |ss| && i != t ==> r[i] == ss[i]
  {
    ss[t := ss[t].(repaired := true)]
  }

  /**
   * While a repair is going on, its target exists and is not yet repaired,
   * and the timer has not reached REPAIR_TIME.
   */
  predicate RepairOk(ss: seq<RepairSystem>, st: RepairState)
  {
    st.Repairing? ==> st.target < |ss| && !ss[st.target].repaired && st.timer < REPAIR_TIME
  }

  /** The systems after a frame of the repair logic. */
  function AfterTick(ss: seq<RepairSystem>, o: RepairStep): seq<RepairSystem>
  {
    if o.finished.Some? && o.finished.value < |ss| then MarkRepaired(ss, o.finished.value) else ss
  }

  /** A frame of the repair logic keeps RepairOk and never clears a repaired flag. */
  lemma RepairTickKeepsOk(ss: seq<RepairSystem>, px: real, py: real, held: bool, st: RepairState, dt: real)
    requires RepairOk(ss, st)
    ensures var o := RepairTick(ss, px, py, held, st, dt);
      && RepairOk(AfterTick(ss, o), o.state)
      && |AfterTick(ss, o)| == |ss|
      && (o.finished.Some? ==> o.finished.value < |ss|)
      && (forall i :: 0 <= i < |ss| ==> AfterTick(ss, o)[i] == ss[i].(repaired := AfterTick(ss, o)[i].repaired))
      && (forall i :: 0 <= i < |ss| && ss[i].repaired ==> AfterTick(ss, o)[i].repaired)
  {
  }

  // ---------------------------------------------------------------------
  // check_level_complete (project.py:1130-1141)

  predicate AllRepaired(ss: seq<RepairSystem>)
  {
    forall i :: 0 <= i < |ss| ==> ss[i].repaired
  }

  /** The one-time bonus for clearing a level. */
  function LevelBonus(level: int): int
  {
    level * 50
  }

  /** `level_complete`, `score` and `points_available` around the check. */
  datatype Completion = Completion(complete: bool, score: int, points: int)

  /**
   * A level with no systems is never completed by the check; otherwise, once
   * every system is repaired, the first check sets the flag and adds the bonus
   * to both score and points.
   */
  function CompleteLevel(ss: seq<RepairSystem>, level: int, c: Completion): (r: Completion)
  {
    if ss == [] then c
    else if AllRepaired(ss) && !c.complete then
      Completion(true, c.score + LevelBonus(level), c.points + LevelBonus(level))
    else c
  }

  /**
   * The check changes something exactly when there are systems, all are
   * repaired and the level was not yet complete; then the flag is set and
   * both counters rise by level * 50. A second check changes nothing, so
   * the bonus is paid once.
   */
  lemma CompleteLevelOnce(ss: seq<RepairSystem>, level: int, c: Completion)
    ensures var r := CompleteLevel(ss, level, c);
      && (r != c <==> ss != [] && AllRepaired(ss) && !c.complete)
      && (r != c ==> r == Completion(true, c.score + 50 * level, c.points + 50 * level))
      && CompleteLevel(ss, level, r) == r
  {
  }

  /** A repair that finishes on a level whose other systems were done completes the level with the bonus. */
  lemma LastRepairCompletes(ss: seq<RepairSystem>, t: nat, level: int, score: int, points: int)
    requires t < |ss|
    requires forall i :: 0 <= i < |ss| && i != t ==> ss[i].repaired
    ensures CompleteLevel(MarkRepaired(ss, t), level, Completion(false, score, points))
         == Completion(true, score + level * 50, points + level * 50)
  {
    var r := MarkRepaired(ss, t);
    assert AllRepaired(r);
  }
}
