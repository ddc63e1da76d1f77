/**
 * src/core/basePawn.js: a world object with health that can be damaged and
 * dies once.
 *
 * `BasePawn` extends lance's `DynamicObject`; here a `Pawn` holds its world
 * object as `obj`, and the runtime class on `obj.cls` picks the class's
 * `initialHealth`. The base `onDied` does nothing; `ApplyDamage` reports
 * through `died` that it would be called, so that subclasses with their own
 * `onDied` (the enemies) can run it. The ghost counter `deaths` records the
 * calls.
 */
module Pawns {
  import opened Wrappers
  import opened Lance

  /**
   * `this.constructor.initialHealth`: 10 for an `AlienGoon`, 100 for
   * `BasePawn` and every other pawn class.
   */
  function InitialHealth(cls: ObjectClass): (h: real)
    requires cls.IsPawn()
    ensures h > 0.0
    ensures h == 10.0 <==> cls == AlienGoonClass
    ensures h == 100.0 <==> cls != AlienGoonClass
  {
    if cls == AlienGoonClass then 10.0 else 100.0
  }

  /** What one `applyDamage` does to the health, and whether it calls `onDied`. */
  datatype DamageResult = DamageResult(health: real, died: bool)

  /** One `applyDamage(amount, ...)` on a pawn with the given health. */
  function DamageStep(health: real, amount: real): (r: DamageResult)
    ensures health <= 0.0 ==> r == DamageResult(health, false)
    ensures health > 0.0 ==> r.health == health - amount
    ensures r.died <==> health > 0.0 && r.health <= 0.0
  {
    if health > 0.0 then
      var h := health - amount;
      DamageResult(h, h <= 0.0)
    else DamageResult(health, false)
  }

  /** The health after a sequence of `applyDamage` calls. */
  function HealthAfter(health: real, amounts: seq<real>): real
    decreases |amounts|
  {
    if |amounts| == 0 then health
    else HealthAfter(DamageStep(health, amounts[0]).health, amounts[1..])
  }

  /** How many of those calls call `onDied`. */
  function DeathsDuring(health: real, amounts: seq<real>): nat
    decreases |amounts|
  {
    if |amounts| == 0 then 0
    else
      var step := DamageStep(health, amounts[0]);
      (if step.died then 1 else 0) + DeathsDuring(step.health, amounts[1..])
  }

  /** A dead pawn stays dead, with its health frozen, whatever damage follows. */
  lemma {:induction false} DeadStaysDead(health: real, amounts: seq<real>)
    requires health <= 0.0
    ensures HealthAfter(health, amounts) == health
    ensures DeathsDuring(health, amounts) == 0
    decreases |amounts|
  {
    if |amounts| > 0 {
      DeadStaysDead(health, amounts[1..]);
    }
  }

  /**
   * Across any sequence of `applyDamage` calls `onDied` runs at most once,
   * and exactly once when the pawn starts alive and ends dead.
   */
  lemma {:induction false} DiesAtMostOnce(health: real, amounts: seq<real>)
    ensures DeathsDuring(health, amounts) <= 1
    ensures DeathsDuring(health, amounts) == 1 <==> health > 0.0 && HealthAfter(health, amounts) <= 0.0
    decreases |amounts|
  {
    if |amounts| == 0 {
    } else {
      var step := DamageStep(health, amounts[0]);
      if step.died {
        DeadStaysDead(step.health, amounts[1..]);
      } else if health <= 0.0 {
        DeadStaysDead(health, amounts);
      } else {
        DiesAtMostOnce(step.health, amounts[1..]);
      }
    }
  }

  /** `BasePawn`. */
  class Pawn {
    const obj: DynamicObject
    var health: real
    /** Set by movement and the AI; undefined (None) until first set. */
    var isFacingRight: Option<int>
    /** Calls of `onDied` so far. */
    ghost var deaths: nat

    /** `onDied` has run exactly when the pawn is dead. */
    ghost predicate Valid()
      reads this
    {
      deaths == (if health > 0.0 then 0 else 1)
    }

    constructor(obj: DynamicObject)
      requires obj.cls.IsPawn()
      ensures Valid()
      ensures this.obj == obj && health == InitialHealth(obj.cls)
      ensures isFacingRight == None && deaths == 0
    {
      this.obj := obj;
      health := InitialHealth(obj.cls);
      isFacingRight := None;
      deaths := 0;
    }

    /** `isAlive()`. */
    function IsAlive(): (r: bool)
      reads this
      ensures r <==> health > 0.0
    {
      health > 0.0
    }

    /** `isDead()`: the negation of `isAlive()`. */
    function IsDead(): (r: bool)
      reads this
      ensures r <==> health <= 0.0
    {
      !IsAlive()
    }

    /**
     * `applyDamage(amount, instigator, reason)`: a live pawn loses `amount`
     * (there is no clamping at 0); a dead one is left alone. `died` is true
     * exactly when this call calls `onDied`.
     */
    method ApplyDamage(amount: real) returns (died: bool)
      requires Valid()
      modifies this`health, this`deaths
      ensures Valid()
      ensures DamageResult(health, died) == DamageStep(old(health), amount)
      ensures deaths == old(deaths) + (if died then 1 else 0)
    {
      died := false;
      if IsAlive() {
        health := health - amount;
        if IsDead() {
          died := true;
          deaths := deaths + 1;
        }
      }
    }
  }

  /** The base `canTakeDamage(instigator, reason)`: every instigator may do damage. */
  function BaseCanTakeDamage(instigator: Option<DynamicObject>): (r: bool)
    ensures r
  {
    true
  }
}
