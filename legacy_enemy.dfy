/**
 * src/pawns/baseEnemy.js: the older enemy, whose two moves are still empty.
 * `scheduleNextMove` only records the move that the armed timer will run and
 * stores the timer's handle; it never re-arms itself.
 *
 * Timers are explicit as in the newer enemy: `pending` holds the serials of
 * armed timers that have neither run nor been cleared, `FireTimer` runs one
 * (its move does nothing), and `randomInRange` is an input.
 */
module LegacyEnemies {
  import opened Wrappers
  import opened Lance
  import opened Pawns
  import opened Enemies

  /** The two move functions `lastMoveFunc` can hold. */
  datatype LegacyMove = FollowAttackTarget | WaitAtPoint

  /**
   * The move recorded after `last`: follow after wait, and wait after
   * follow or null.
   */
  function NextMove(last: Option<LegacyMove>): (m: LegacyMove)
    ensures last == Some(WaitAtPoint) <==> m == FollowAttackTarget
  {
    if last == Some(WaitAtPoint) then FollowAttackTarget else WaitAtPoint
  }

  /**
   * The bounds of the delay armed together with a move: the wait bounds
   * before following, the follow bounds before waiting.
   */
  function MoveDelayBounds(m: LegacyMove): (b: (real, real))
    ensures m == FollowAttackTarget ==> b == (WaitAtPointDurationMin, WaitAtPointDurationMax)
    ensures m == WaitAtPoint ==> b == (FollowTargetDurationMin, FollowTargetDurationMax)
  {
    match m
    case FollowAttackTarget => (WaitAtPointDurationMin, WaitAtPointDurationMax)
    case WaitAtPoint => (FollowTargetDurationMin, FollowTargetDurationMax)
  }

  /** `lastMoveFunc` after `n` calls of `scheduleNextMove` from the initial null. */
  function MoveAfter(n: nat): Option<LegacyMove> {
    if n == 0 then None else Some(NextMove(MoveAfter(n - 1)))
  }

  /** The recorded moves run wait, follow, wait, follow, ... */
  lemma {:induction false} MovesAlternate(n: nat)
    requires n > 0
    ensures MoveAfter(n) == Some(if n % 2 == 1 then WaitAtPoint else FollowAttackTarget)
  {
    if n > 1 {
      MovesAlternate(n - 1);
    }
  }

  /** The `BaseEnemy` of src/pawns/baseEnemy.js. */
  class LegacyEnemy {
    const body: Pawn
    /** Object id of the target, or -1 for none. */
    var attackTargetId: int
    var lastMoveFunc: Option<LegacyMove>
    var aiFuncCounter: Option<TimerHandle>
    /** Serials of armed timers that have neither run nor been cleared. */
    var pending: set<nat>
    /** Serial for the next timer. */
    var timersIssued: nat

    ghost predicate Valid()
      reads this, body
    {
      && body.Valid()
      && (forall s :: s in pending ==> s < timersIssued)
      && (aiFuncCounter.Some? ==> aiFuncCounter.value.serial < timersIssued)
    }

    constructor(obj: DynamicObject)
      requires obj.cls == LegacyEnemyClass
      ensures Valid()
      ensures fresh(body) && body.obj == obj && body.health == InitialHealth(obj.cls)
      ensures attackTargetId == -1 && lastMoveFunc == None && aiFuncCounter == None
      ensures pending == {} && timersIssued == 0
    {
      body := new Pawn(obj);
      attackTargetId := -1;
      lastMoveFunc := None;
      aiFuncCounter := None;
      pending := {};
      timersIssued := 0;
    }

    /** `pickAttackTarget()`: this enemy never targets anything. */
    function PickAttackTarget(): (r: int)
      ensures r == -1
    {
      -1
    }

    /**
     * `scheduleNextMove()`: record the next move and arm a timer for it,
     * overwriting the stored handle; a timer armed earlier stays armed.
     */
    method ScheduleNextMove(randomInRange: (real, real) -> real)
      requires Valid()
      modifies this`lastMoveFunc, this`aiFuncCounter, this`pending, this`timersIssued
      ensures Valid()
      ensures lastMoveFunc == Some(NextMove(old(lastMoveFunc)))
      ensures var b := MoveDelayBounds(lastMoveFunc.value);
              aiFuncCounter == Some(TimerHandle(old(timersIssued), randomInRange(b.0, b.1)))
      ensures pending == old(pending) + {old(timersIssued)} && timersIssued == old(timersIssued) + 1
    {
      var nextMove, delay;
      if lastMoveFunc == Some(WaitAtPoint) {
        nextMove := FollowAttackTarget;
        delay := randomInRange(WaitAtPointDurationMin, WaitAtPointDurationMax);
      } else {
        nextMove := WaitAtPoint;
        delay := randomInRange(FollowTargetDurationMin, FollowTargetDurationMax);
      }
      lastMoveFunc := Some(nextMove);
      aiFuncCounter := Some(TimerHandle(timersIssued, delay));
      pending := pending + {timersIssued};
      timersIssued := timersIssued + 1;
    }

    /** An armed timer runs its move, which does nothing yet. */
    method FireTimer(serial: nat)
      requires Valid() && serial in pending
      modifies this`pending
      ensures Valid()
      ensures pending == old(pending) - {serial}
    {
      pending := pending - {serial};
    }

    /**
     * `onDied(instigator, reason)`: clear the timer of the stored handle,
     * if there is one; on client and server alike.
     */
    method OnDied()
      modifies this`pending
      ensures aiFuncCounter.Some? ==> pending == old(pending) - {aiFuncCounter.value.serial}
      ensures aiFuncCounter.None? ==> pending == old(pending)
    {
      if aiFuncCounter.Some? {
        pending := pending - {aiFuncCounter.value.serial};
      }
    }

    /** `applyDamage` as this enemy: the pawn's damage, then `onDied` when due. */
    method ApplyDamage(amount: real) returns (died: bool)
      requires Valid()
      modifies body`health, body`deaths, this`pending
      ensures Valid()
      ensures DamageResult(body.health, died) == DamageStep(old(body.health), amount)
      ensures !died ==> pending == old(pending)
      ensures died && aiFuncCounter.Some? ==> pending == old(pending) - {aiFuncCounter.value.serial}
      ensures died && aiFuncCounter.None? ==> pending == old(pending)
    {
      died := body.ApplyDamage(amount);
      if died {
        OnDied();
      }
    }
  }
}
