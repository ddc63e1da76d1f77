/**
 * src/weapons/fistWeapon.js: a weapon whose attack damages one pawn near its
 * wielder.
 *
 * The pawns of the world are passed as `pawns`, the `Pawn` records whose
 * bodies are exactly what `pawnsInWorld` returns, in world order.
 */
module FistWeapons {
  import opened Wrappers
  import opened Utils
  import opened Lance
  import opened LanceUtils
  import opened Pawns
  import opened Weapons

  /** Furthest a pawn can be from the wielder to be targeted. */
  const AttackRadius: real := 10.0

  /** Damage dealt by one attack. */
  const DamageAmount: real := 10.0

  const UnwieldyMessage: string := "cannot attack when weapon is unwieldy"

  /** The world objects of the pawns, in order. */
  function Bodies(pawns: seq<Pawn>): (r: seq<DynamicObject>)
    ensures |r| == |pawns|
    ensures forall i :: 0 <= i < |pawns| ==> r[i] == pawns[i].obj
  {
    seq(|pawns|, i requires 0 <= i < |pawns| => pawns[i].obj)
  }

  /** `pawns` stands for the pawns of the world, in world order. */
  ghost predicate PawnsOfWorld(pawns: seq<Pawn>, world: World)
    reads world
  {
    Bodies(pawns) == PawnsOf(world.objects)
  }

  /**
   * The object the fist picks: among `candidates` other than the wielder and
   * strictly within `AttackRadius` of it, the one `closestObject` returns,
   * i.e. the farthest of them, the first on ties.
   */
  function FistTarget(wielder: DynamicObject, candidates: seq<DynamicObject>): (r: Option<DynamicObject>)
    reads wielder, candidates
    ensures r.None? <==> forall o :: o in candidates ==> !InRange(o, wielder.position, AttackRadius, [wielder])
    ensures r.Some? ==> r.value in candidates && r.value != wielder
    ensures r.Some? ==> DistBelow(wielder.position, r.value.position, AttackRadius)
    ensures r.Some? ==> forall o :: o in candidates && InRange(o, wielder.position, AttackRadius, [wielder]) ==>
              DistSq(wielder.position, o.position) <= DistSq(wielder.position, r.value.position)
  {
    var inRange := ObjectsInRange(candidates, wielder.position, AttackRadius, [wielder]);
    assert forall i :: 0 <= i < |inRange| ==> inRange[i] in inRange;
    assert forall o :: o in inRange ==> o in candidates;
    ClosestObject(inRange, wielder.position)
  }

  /** The first pawn whose body is `o`, as an index into `pawns`. */
  function PawnIndex(pawns: seq<Pawn>, o: DynamicObject): (k: int)
    ensures -1 <= k < |pawns|
    ensures k == -1 <==> o !in Bodies(pawns)
    ensures k != -1 ==> pawns[k].obj == o
  {
    if |pawns| == 0 then -1
    else if pawns[0].obj == o then 0
    else
      var k := PawnIndex(pawns[1..], o);
      assert Bodies(pawns[1..]) == Bodies(pawns)[1..];
      if k == -1 then -1 else k + 1
  }

  /**
   * The object an attack with `weapon` hits: none without a wielder, else
   * the `FistTarget` among the pawns of the world.
   */
  function AttackTarget(weapon: Weapon, world: World): (r: Option<DynamicObject>)
    reads weapon, world, world.objects
    ensures weapon.GetWielder(world).None? ==> r.None?
    ensures r.Some? ==> r.value in world.objects && r.value.cls.IsPawn()
    ensures r.Some? ==> r.value != weapon.GetWielder(world).value
  {
    var wielder := weapon.GetWielder(world);
    if wielder.None? then None
    else
      var candidates := PawnsOf(world.objects);
      assert forall i :: 0 <= i < |candidates| ==> candidates[i] in candidates;
      assert forall o :: o in candidates ==> o in world.objects;
      assert wielder.value in world.objects;
      FistTarget(wielder.value, candidates)
  }

  /**
   * `FistWeapon.attack()`: throws, touching nothing, when the weapon has no
   * wielder; otherwise damages the target pawn, if there is one, by
   * `DamageAmount` with the wielder as instigator. No other pawn changes.
   * `victim` is the pawn hit and `died` whether its `onDied` is due.
   */
  method Attack(weapon: Weapon, world: World, pawns: seq<Pawn>)
    returns (r: Outcome, victim: Option<Pawn>, died: bool)
    requires PawnsOfWorld(pawns, world)
    requires forall p :: p in pawns ==> p.Valid()
    modifies pawns`health, pawns`deaths
    ensures forall p :: p in pawns ==> p.Valid()
    ensures r.Throw? <==> old(weapon.GetWielder(world)).None?
    ensures r.Throw? ==> r.message == UnwieldyMessage
    ensures victim.Some? <==> old(AttackTarget(weapon, world)).Some?
    ensures victim.Some? ==> victim.value in pawns && victim.value.obj == old(AttackTarget(weapon, world)).value
    ensures victim.Some? ==> DamageResult(victim.value.health, died) == DamageStep(old(victim.value.health), DamageAmount)
    ensures victim.None? ==> !died
    ensures forall p :: p in pawns && Some(p) != victim ==> p.health == old(p.health)
  {
    victim := None;
    died := false;
    var wielder := weapon.GetWielder(world);
    if wielder.None? {
      r := Throw(UnwieldyMessage);
      return;
    }
    r := Ok;
    var target := AttackTarget(weapon, world);
    if target.Some? {
      var k := PawnIndex(pawns, target.value);
      died := pawns[k].ApplyDamage(DamageAmount);
      victim := Some(pawns[k]);
    }
  }

  /**
   * `weapon.attack()` dispatched on the weapon's class: a `FistWeapon` hits;
   * the base `WeaponBase.attack` does nothing.
   */
  method WeaponAttack(weapon: Weapon, world: World, pawns: seq<Pawn>)
    returns (r: Outcome, victim: Option<Pawn>, died: bool)
    requires PawnsOfWorld(pawns, world)
    requires forall p :: p in pawns ==> p.Valid()
    modifies pawns`health, pawns`deaths
    ensures forall p :: p in pawns ==> p.Valid()
    ensures weapon.obj.cls != FistWeaponClass ==> r == Ok && victim.None? && !died
    ensures weapon.obj.cls == FistWeaponClass ==>
              && (r.Throw? <==> old(weapon.GetWielder(world)).None?)
              && (victim.Some? <==> old(AttackTarget(weapon, world)).Some?)
              && (victim.Some? ==> victim.value.obj == old(AttackTarget(weapon, world)).value)
    ensures r.Throw? ==> victim.None? && r.message == UnwieldyMessage
    ensures victim.Some? ==> victim.value in pawns
    ensures victim.Some? ==> DamageResult(victim.value.health, died) == DamageStep(old(victim.value.health), DamageAmount)
    ensures victim.None? ==> !died
    ensures forall p :: p in pawns && Some(p) != victim ==> p.health == old(p.health)
  {
    if weapon.obj.cls == FistWeaponClass {
      r, victim, died := Attack(weapon, world, pawns);
    } else {
      r, victim, died := Ok, None, false;
    }
  }
}
