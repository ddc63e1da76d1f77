/**
 * src/components/damageComponent.js: the component form of pawn health, with
 * an optional `canTakeDamage` gate and no `onDied`.
 *
 * The gate field holds either a predicate over (instigator, reason) or
 * something that is not a function (null after construction); only a
 * function can refuse damage, so anything else is `None` here.
 */
module Damage {
  import opened Wrappers
  import opened Lance
  import Pawns

  /** What `canTakeDamage` may hold: a predicate over (instigator, reason), or no function. */
  type DamageGate = Option<(Option<DynamicObject>, Option<string>) -> bool>

  /** The health after one `applyDamage(amount, instigator, reason)` on the component. */
  function ComponentDamage(health: real, gate: DamageGate, amount: real,
                           instigator: Option<DynamicObject>, reason: Option<string>): (h: real)
    ensures health <= 0.0 ==> h == health
    ensures gate.Some? && !gate.value(instigator, reason) ==> h == health
    ensures health > 0.0 && (gate.None? || gate.value(instigator, reason)) ==> h == health - amount
  {
    if !(health <= 0.0) && (gate.None? || gate.value(instigator, reason)) then health - amount
    else health
  }

  /**
   * Without a gate the component takes damage exactly as `BasePawn` does,
   * except that it has no `onDied` to call.
   */
  lemma UngatedMatchesPawn(health: real, amount: real, instigator: Option<DynamicObject>, reason: Option<string>)
    ensures ComponentDamage(health, None, amount, instigator, reason) == Pawns.DamageStep(health, amount).health
  {
  }

  /** A gate that refuses every instigator freezes the health over any sequence of hits. */
  lemma {:induction false} RefusingGateFreezes(health: real, gate: DamageGate, amounts: seq<real>,
                                               instigator: Option<DynamicObject>, reason: Option<string>)
    requires gate.Some? && !gate.value(instigator, reason)
    ensures ComponentHealthAfter(health, gate, amounts, instigator, reason) == health
    decreases |amounts|
  {
    if |amounts| > 0 {
      RefusingGateFreezes(health, gate, amounts[1..], instigator, reason);
    }
  }

  /** The health after a sequence of hits from one instigator. */
  function ComponentHealthAfter(health: real, gate: DamageGate, amounts: seq<real>,
                                instigator: Option<DynamicObject>, reason: Option<string>): real
    decreases |amounts|
  {
    if |amounts| == 0 then health
    else ComponentHealthAfter(ComponentDamage(health, gate, amounts[0], instigator, reason),
                              gate, amounts[1..], instigator, reason)
  }

  /** `DamageComponent`. */
  class DamageComponent {
    var health: real
    var canTakeDamage: DamageGate

    constructor(initialHealth: real)
      ensures health == initialHealth && canTakeDamage == None
    {
      health := initialHealth;
      canTakeDamage := None;
    }

    /** `isDead()`. */
    function IsDead(): (r: bool)
      reads this
      ensures r <==> health <= 0.0
    {
      health <= 0.0
    }

    /**
     * `applyDamage(amount, instigator, reason)`: a live component whose gate
     * does not refuse loses `amount`; nothing else changes.
     */
    method ApplyDamage(amount: real, instigator: Option<DynamicObject>, reason: Option<string>)
      modifies this`health
      ensures health == ComponentDamage(old(health), canTakeDamage, amount, instigator, reason)
    {
      if !IsDead() {
        if canTakeDamage.None? || canTakeDamage.value(instigator, reason) {
          health := health - amount;
        }
      }
    }
  }
}
