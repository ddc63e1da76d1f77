/**
 * src/core/baseEnemy.js: an enemy pawn whose AI alternates between two
 * phases, advancing on a target and waiting at a point (attacking when the
 * target is close).
 *
 * Timers are explicit: `ScheduleNextMove` arms a timer whose handle has a
 * fresh serial number and the drawn delay; `pending` holds the serials of
 * timers armed and neither run nor cleared; `FireTimer` runs one. The hooks
 * the code calls but does not define are inputs: the authority flag, the
 * engine's `getPlayers()` result, `directionTo` (from, to) and
 * `randomInRange(min, max)`. `distanceTo(p)` is taken to be `dist` from the
 * enemy's position. Where the code calls `this.getWeapon()?.attack()`, the
 * methods return `attack == true` for the caller to perform it.
 */
module Enemies {
  import opened Wrappers
  import opened Utils
  import opened Lance
  import opened LanceUtils
  import opened Pawns

  /** The two AI phase functions `lastMoveFunc` can hold. */
  datatype Phase = Advance | Wait

  /** A `setTimeout` handle: a serial number and the delay it was armed with. */
  datatype TimerHandle = TimerHandle(serial: nat, delay: real)

  const MoveSpeed: real := 1.0
  const WaitAtPointDurationMin: real := 3000.0
  const WaitAtPointDurationMax: real := 6000.0
  const FollowTargetDurationMin: real := 1000.0
  const FollowTargetDurationMax: real := 1200.0
  /** Launch an attack when this close to the target. */
  const AttackPhaseRadius: real := 32.0
  /** Stop advancing when this close to the target. */
  const StopDistance: real := 16.0

  /** The phase `scheduleNextMove` enters after `last`: advance and wait alternate. */
  function NextPhase(last: Option<Phase>): (p: Phase)
    ensures last == Some(Advance) <==> p == Wait
  {
    if last == Some(Advance) then Wait else Advance
  }

  /** The bounds the delay of a phase is drawn from. */
  function DelayBounds(p: Phase): (b: (real, real))
    ensures p == Wait ==> b == (WaitAtPointDurationMin, WaitAtPointDurationMax)
    ensures p == Advance ==> b == (FollowTargetDurationMin, FollowTargetDurationMax)
    ensures 0.0 < b.0 < b.1
  {
    match p
    case Wait => (WaitAtPointDurationMin, WaitAtPointDurationMax)
    case Advance => (FollowTargetDurationMin, FollowTargetDurationMax)
  }

  /** `lastMoveFunc` after `n` calls of `scheduleNextMove` from the initial null. */
  function PhaseAfter(n: nat): Option<Phase> {
    if n == 0 then None else Some(NextPhase(PhaseAfter(n - 1)))
  }

  /** The phases strictly alternate, starting with advance. */
  lemma {:induction false} PhasesAlternate(n: nat)
    requires n > 0
    ensures PhaseAfter(n) == Some(if n % 2 == 1 then Advance else Wait)
  {
    if n > 1 {
      PhasesAlternate(n - 1);
    }
  }

  /** Where one advance step takes the enemy: towards a target farther than 16 away. */
  function AdvancedPosition(pos: Vec2, target: Option<Vec2>, directionTo: (Vec2, Vec2) -> Vec2): (r: Vec2)
    ensures target.None? || !DistAbove(pos, target.value, StopDistance) ==> r == pos
    ensures target.Some? && DistAbove(pos, target.value, StopDistance) ==>
              r == pos.Plus(directionTo(pos, target.value).Scale(MoveSpeed))
  {
    if target.Some? && DistAbove(pos, target.value, StopDistance)
    then pos.Plus(directionTo(pos, target.value).Scale(MoveSpeed))
    else pos
  }

  /**
   * `isFacingRight` after one advance step from `pos`: the way the step goes
   * when the enemy moves, otherwise as it was.
   */
  function AdvancedFacing(pos: Vec2, target: Option<Vec2>, directionTo: (Vec2, Vec2) -> Vec2,
                          facing: Option<int>): Option<int>
  {
    if target.Some? && DistAbove(pos, target.value, StopDistance)
    then Some(FacingFor(directionTo(pos, target.value)))
    else facing
  }

  /** `isFacingRight` after waiting at `pos`: towards the target if there is one, otherwise as it was. */
  function WaitingFacing(pos: Vec2, target: Option<Vec2>, directionTo: (Vec2, Vec2) -> Vec2,
                         facing: Option<int>): Option<int>
  {
    if target.Some? then Some(FacingFor(directionTo(pos, target.value))) else facing
  }

  /**
   * An advancing enemy faces the way it moves: when the step is taken, it
   * faces right exactly when the step does not go left; otherwise neither
   * its position nor its facing changes.
   */
  lemma FacingFollowsStep(pos: Vec2, target: Option<Vec2>, directionTo: (Vec2, Vec2) -> Vec2, facing: Option<int>)
    ensures var moved := AdvancedPosition(pos, target, directionTo);
            var faced := AdvancedFacing(pos, target, directionTo, facing);
            if target.Some? && DistAbove(pos, target.value, StopDistance)
            then (faced == Some(1) <==> moved.x >= pos.x) && (faced == Some(0) <==> moved.x < pos.x)
            else moved == pos && faced == facing
  {
  }

  /** `isFacingRight` for a direction: 1 when it points right or straight up or down. */
  function FacingFor(direction: Vec2): (f: int)
    ensures f == 1 <==> direction.x >= 0.0
    ensures f == 0 <==> direction.x < 0.0
  {
    if direction.x >= 0.0 then 1 else 0
  }

  /** `getAttackTarget()` for a target id: null for -1, else the world object with that id. */
  function TargetOf(world: World, id: int): (r: Option<DynamicObject>)
    reads world
    ensures id == -1 ==> r.None?
    ensures id != -1 ==> r == world.QueryById(id)
    ensures r.Some? ==> r.value in world.objects && r.value.id == id
  {
    if id == -1 then None else world.QueryById(id)
  }

  /** The position of that target, if there is one. */
  function TargetPositionOf(world: World, id: int): Option<Vec2>
    reads world, world.objects
  {
    var t := TargetOf(world, id);
    if t.Some? then Some(t.value.position) else None
  }

  /** The `BaseEnemy` of src/core/baseEnemy.js. */
  class Enemy {
    const body: Pawn
    /** Object id of the target, or -1 for none. */
    var attackTargetId: int
    var lastMoveFunc: Option<Phase>
    var aiFuncCounter: Option<TimerHandle>
    var hasActivatedAi: bool
    /** Serials of armed timers that have neither run nor been cleared. */
    var pending: set<nat>
    /** Serial for the next timer. */
    var timersIssued: nat

    ghost predicate Valid()
      reads this, body
    {
      && body.Valid()
      && (forall s :: s in pending ==> s < timersIssued)
      && (aiFuncCounter.Some? ==> aiFuncCounter.value.serial < timersIssued)
    }

    constructor(obj: DynamicObject)
      requires obj.cls.IsEnemy()
      ensures Valid()
      ensures fresh(body) && body.obj == obj && body.health == InitialHealth(obj.cls)
      ensures attackTargetId == -1 && lastMoveFunc == None && aiFuncCounter == None
      ensures !hasActivatedAi && pending == {} && timersIssued == 0
    {
      body := new Pawn(obj);
      attackTargetId := -1;
      lastMoveFunc := None;
      aiFuncCounter := None;
      hasActivatedAi := false;
      pending := {};
      timersIssued := 0;
    }

    /**
     * `pickAttackTarget()`: the id of the player `closestObject` picks from
     * the enemy's position (the farthest one), or -1 with no players.
     */
    function PickAttackTarget(players: seq<DynamicObject>): (r: int)
      reads body.obj, players
      ensures |players| == 0 ==> r == -1
      ensures |players| > 0 ==> ClosestObject(players, body.obj.position).Some? &&
                                r == ClosestObject(players, body.obj.position).value.id
    {
      var c := ClosestObject(players, body.obj.position);
      if c.Some? then c.value.id else -1
    }

    /** `getAttackTarget()`. */
    function GetAttackTarget(world: World): (r: Option<DynamicObject>)
      reads this, world
      ensures attackTargetId == -1 ==> r.None?
      ensures attackTargetId != -1 ==> (r.Some? <==> attackTargetId in world.Ids())
      ensures r.Some? ==> r.value in world.objects && r.value.id == attackTargetId
    {
      TargetOf(world, attackTargetId)
    }

    /** `isWithinAttackRange(target)`: at distance at most `attackPhaseRadius`. */
    function IsWithinAttackRange(target: DynamicObject): (r: bool)
      reads body.obj, target
      ensures r <==> DistSq(body.obj.position, target.position) <= AttackPhaseRadius * AttackPhaseRadius
    {
      DistAtMost(body.obj.position, target.position, AttackPhaseRadius)
    }

    /** `advanceTowardsAttackTarget()`: one step towards a target farther than 16 away. */
    method AdvanceTowardsAttackTarget(world: World, directionTo: (Vec2, Vec2) -> Vec2)
      modifies body.obj`position, body`isFacingRight
      ensures var tp := old(TargetPositionOf(world, attackTargetId));
              && body.obj.position == AdvancedPosition(old(body.obj.position), tp, directionTo)
              && body.isFacingRight == AdvancedFacing(old(body.obj.position), tp, directionTo, old(body.isFacingRight))
    {
      var target := GetAttackTarget(world);
      if target.Some? && DistAbove(body.obj.position, target.value.position, StopDistance) {
        var direction := directionTo(body.obj.position, target.value.position);
        body.obj.position := body.obj.position.Plus(direction.Scale(MoveSpeed));
        body.isFacingRight := Some(FacingFor(direction));
      }
    }

    /**
     * `waitAtPoint()`: face the target and attack it when within
     * `attackPhaseRadius`; without a target nothing happens.
     */
    method WaitAtPoint(world: World, directionTo: (Vec2, Vec2) -> Vec2) returns (attack: bool)
      modifies body`isFacingRight
      ensures var t := GetAttackTarget(world);
              attack <==> t.Some? && IsWithinAttackRange(t.value)
      ensures body.isFacingRight ==
                WaitingFacing(body.obj.position, TargetPositionOf(world, attackTargetId), directionTo, old(body.isFacingRight))
    {
      attack := false;
      var target := GetAttackTarget(world);
      if target.Some? {
        var direction := directionTo(body.obj.position, target.value.position);
        body.isFacingRight := Some(FacingFor(direction));
        if IsWithinAttackRange(target.value) {
          attack := true;
        }
      }
    }

    /** The wait branch of `scheduleNextMove()`: enter the wait phase and run it once. */
    method EnterWait(world: World, directionTo: (Vec2, Vec2) -> Vec2) returns (attack: bool)
      modifies this`lastMoveFunc, body`isFacingRight
      ensures lastMoveFunc == Some(Wait)
      ensures var t := GetAttackTarget(world);
              attack <==> t.Some? && IsWithinAttackRange(t.value)
      ensures body.isFacingRight ==
                WaitingFacing(body.obj.position, TargetPositionOf(world, attackTargetId), directionTo, old(body.isFacingRight))
    {
      lastMoveFunc := Some(Wait);
      attack := WaitAtPoint(world, directionTo);
    }

    /**
     * The advance branch of `scheduleNextMove()`: enter the advance phase,
     * re-pick the target and run the phase once.
     */
    method EnterAdvance(world: World, players: seq<DynamicObject>, directionTo: (Vec2, Vec2) -> Vec2)
      modifies this`lastMoveFunc, this`attackTargetId, body`isFacingRight, body.obj`position
      ensures lastMoveFunc == Some(Advance)
      ensures attackTargetId == old(PickAttackTarget(players))
      ensures var tp := old(TargetPositionOf(world, PickAttackTarget(players)));
              && body.obj.position == AdvancedPosition(old(body.obj.position), tp, directionTo)
              && body.isFacingRight == AdvancedFacing(old(body.obj.position), tp, directionTo, old(body.isFacingRight))
    {
      lastMoveFunc := Some(Advance);
      attackTargetId := PickAttackTarget(players);
      AdvanceTowardsAttackTarget(world, directionTo);
    }

    /** `setTimeout(..., delay)` stored in `aiFuncCounter`: a new timer, armed. */
    method ArmTimer(delay: real)
      requires forall s :: s in pending ==> s < timersIssued
      modifies this`aiFuncCounter, this`pending, this`timersIssued
      ensures aiFuncCounter == Some(TimerHandle(old(timersIssued), delay))
      ensures pending == old(pending) + {old(timersIssued)} && timersIssued == old(timersIssued) + 1
      ensures forall s :: s in pending ==> s < timersIssued
    {
      aiFuncCounter := Some(TimerHandle(timersIssued, delay));
      pending := pending + {timersIssued};
      timersIssued := timersIssued + 1;
    }

    /**
     * What one run of `scheduleNextMove()` does, apart from the set of armed
     * timers: the other phase is entered and run once, and a timer whose
     * delay is drawn from the new phase's bounds is stored under the next
     * serial. Entering advance re-picks the target, takes one step and
     * never attacks; entering wait keeps the target and the position, faces
     * the target and attacks exactly when it is within range.
     */
    twostate predicate Scheduled(world: World, players: seq<DynamicObject>, directionTo: (Vec2, Vec2) -> Vec2,
                                 randomInRange: (real, real) -> real, attack: bool)
      reads this`lastMoveFunc, this`attackTargetId, this`aiFuncCounter, this`timersIssued
      reads body`isFacingRight, body.obj, world, world.objects, players
    {
      && lastMoveFunc == Some(NextPhase(old(lastMoveFunc)))
      && timersIssued == old(timersIssued) + 1
      && (var b := DelayBounds(lastMoveFunc.value);
          aiFuncCounter == Some(TimerHandle(old(timersIssued), randomInRange(b.0, b.1))))
      && (lastMoveFunc == Some(Advance) ==>
            var tp := old(TargetPositionOf(world, PickAttackTarget(players)));
            && attackTargetId == old(PickAttackTarget(players))
            && body.obj.position == AdvancedPosition(old(body.obj.position), tp, directionTo)
            && body.isFacingRight == AdvancedFacing(old(body.obj.position), tp, directionTo, old(body.isFacingRight))
            && !attack)
      && (lastMoveFunc == Some(Wait) ==>
            && attackTargetId == old(attackTargetId)
            && body.obj.position == old(body.obj.position)
            && body.isFacingRight ==
                 old(WaitingFacing(body.obj.position, TargetPositionOf(world, attackTargetId), directionTo, body.isFacingRight))
            && (attack <==> old(var t := GetAttackTarget(world); t.Some? && IsWithinAttackRange(t.value))))
    }

    /**
     * `scheduleNextMove()`: enter the other phase (advance after null or
     * wait), re-picking the target only when entering advance; run the new
     * phase once; arm a timer with a delay drawn from the phase's bounds.
     */
    method ScheduleNextMove(world: World, players: seq<DynamicObject>,
                            directionTo: (Vec2, Vec2) -> Vec2, randomInRange: (real, real) -> real)
      returns (attack: bool)
      requires Valid()
      modifies this`lastMoveFunc, this`attackTargetId, this`aiFuncCounter, this`pending, this`timersIssued
      modifies body`isFacingRight, body.obj`position
      ensures Valid()
      ensures Scheduled(world, players, directionTo, randomInRange, attack)
      ensures pending == old(pending) + {old(timersIssued)}
    {
      var delay;
      if lastMoveFunc == Some(Advance) {
        delay := randomInRange(WaitAtPointDurationMin, WaitAtPointDurationMax);
        attack := EnterWait(world, directionTo);
      } else {
        delay := randomInRange(FollowTargetDurationMin, FollowTargetDurationMax);
        EnterAdvance(world, players, directionTo);
        attack := false;
      }
      ArmTimer(delay);
    }

    /**
     * `activateAi()`: the first call sets the flag and schedules the first
     * move; later calls change nothing.
     */
    method ActivateAi(world: World, players: seq<DynamicObject>,
                      directionTo: (Vec2, Vec2) -> Vec2, randomInRange: (real, real) -> real)
      returns (attack: bool)
      requires Valid()
      modifies this`hasActivatedAi
      modifies this`lastMoveFunc, this`attackTargetId, this`aiFuncCounter, this`pending, this`timersIssued
      modifies body`isFacingRight, body.obj`position
      ensures Valid()
      ensures hasActivatedAi
      ensures old(hasActivatedAi) ==> !attack && unchanged(this, body, body.obj)
      ensures !old(hasActivatedAi) ==>
                Scheduled(world, players, directionTo, randomInRange, attack) && pending == old(pending) + {old(timersIssued)}
    {
      attack := false;
      if !hasActivatedAi {
        hasActivatedAi := true;
        attack := ScheduleNextMove(world, players, directionTo, randomInRange);
      }
    }

    /** An armed timer runs: it is no longer pending, and it schedules the next move. */
    method FireTimer(serial: nat, world: World, players: seq<DynamicObject>,
                     directionTo: (Vec2, Vec2) -> Vec2, randomInRange: (real, real) -> real)
      returns (attack: bool)
      requires Valid() && serial in pending
      modifies this`lastMoveFunc, this`attackTargetId, this`aiFuncCounter, this`pending, this`timersIssued
      modifies body`isFacingRight, body.obj`position
      ensures Valid()
      ensures Scheduled(world, players, directionTo, randomInRange, attack)
      ensures pending == old(pending) - {serial} + {old(timersIssued)}
    {
      attack := ScheduleNextMove(world, players, directionTo, randomInRange);
      pending := pending - {serial};
    }

    /** `tick()`: with the authority, an enemy in the advance phase advances. */
    method Tick(authority: bool, world: World, directionTo: (Vec2, Vec2) -> Vec2)
      modifies body.obj`position, body`isFacingRight
      ensures !(authority && lastMoveFunc == Some(Advance)) ==>
                body.obj.position == old(body.obj.position) && body.isFacingRight == old(body.isFacingRight)
      ensures var tp := old(TargetPositionOf(world, attackTargetId));
              authority && lastMoveFunc == Some(Advance) ==>
                && body.obj.position == AdvancedPosition(old(body.obj.position), tp, directionTo)
                && body.isFacingRight == AdvancedFacing(old(body.obj.position), tp, directionTo, old(body.isFacingRight))
    {
      if authority && lastMoveFunc == Some(Advance) {
        AdvanceTowardsAttackTarget(world, directionTo);
      }
    }

    /**
     * `onDied(instigator, reason)`: with the authority, clear the last armed
     * timer (if a handle was ever stored) and queue the enemy for removal.
     */
    method OnDied(authority: bool, world: World)
      modifies this`pending, world`pendingKill
      ensures !authority ==> pending == old(pending) && world.pendingKill == old(world.pendingKill)
      ensures authority ==> world.pendingKill == old(world.pendingKill) + [body.obj.id]
      ensures authority && aiFuncCounter.Some? ==> pending == old(pending) - {aiFuncCounter.value.serial}
      ensures authority && aiFuncCounter.None? ==> pending == old(pending)
    {
      if authority {
        if aiFuncCounter.Some? {
          pending := pending - {aiFuncCounter.value.serial};
        }
        world.MarkPendingKill(body.obj.id);
      }
    }

    /** `applyDamage` as an enemy: the pawn's damage, then this class's `onDied` when due. */
    method ApplyDamage(amount: real, authority: bool, world: World) returns (died: bool)
      requires Valid()
      modifies body`health, body`deaths, this`pending, world`pendingKill
      ensures Valid()
      ensures DamageResult(body.health, died) == DamageStep(old(body.health), amount)
      ensures died && authority ==> world.pendingKill == old(world.pendingKill) + [body.obj.id]
      ensures !(died && authority) ==> pending == old(pending) && world.pendingKill == old(world.pendingKill)
      ensures died && authority && aiFuncCounter.Some? ==> pending == old(pending) - {aiFuncCounter.value.serial}
      ensures died && authority && aiFuncCounter.None? ==> pending == old(pending)
    {
      died := body.ApplyDamage(amount);
      if died {
        OnDied(authority, world);
      }
    }
  }
}
