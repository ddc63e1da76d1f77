/**
 * src/pawns/player.js: the pawn a client controls.
 *
 * Movement acts on the velocity of the player's world object; the physics
 * step that integrates it is not part of this model. `canMove()` is always
 * true, so the movement guards reduce to the in-air test. The weapon slot is
 * reached through hooks defined outside the shown code: `isPacking()` is a
 * boolean input, `getWeapon()` an optional weapon, and `dropWeapon` /
 * `pickupWeapon(id)` are returned as a `SlotAction` for the caller to
 * perform.
 */
module Players {
  import opened Wrappers
  import opened Utils
  import opened Lance
  import opened Pawns
  import opened Weapons
  import opened FistWeapons

  const MoveSpeed: real := 0.7
  const MoveSpeedInAir: real := 0.05
  const JumpImpulse: real := 2.0
  /** Vertical speed above which the player counts as airborne. */
  const AirborneSpeed: real := 0.07

  const NoWeaponMessage: string := "weapon must be valid to attack, see Player::canAttack()"

  function Abs(x: real): (r: real)
    ensures r >= 0.0 && (r == x || r == -x)
  {
    if x < 0.0 then -x else x
  }

  /** `isInAir()` for a given velocity. */
  function InAir(velocity: Vec2): (r: bool)
    ensures r <==> velocity.y > AirborneSpeed || velocity.y < -AirborneSpeed
  {
    Abs(velocity.y) > AirborneSpeed
  }

  /** The speed `moveLeft` / `moveRight` add: small in the air, larger on the ground. */
  function StepSpeed(velocity: Vec2): (s: real)
    ensures InAir(velocity) ==> s == MoveSpeedInAir
    ensures !InAir(velocity) ==> s == MoveSpeed
    ensures s > 0.0
  {
    if InAir(velocity) then MoveSpeedInAir else MoveSpeed
  }

  /** What `toggleWeaponSlot` asks the weapon hooks to do. */
  datatype SlotAction = NoSlotAction | DropWeapon | PickupWeapon(weaponId: int)

  /** The `Player` of src/pawns/player.js. */
  class Player {
    const body: Pawn
    var isReady: int
    /** Object id of a weapon in reach, or 0. */
    var grabCandidateId: int

    constructor(obj: DynamicObject)
      requires obj.cls == PlayerClass
      ensures fresh(body) && body.obj == obj && body.Valid()
      ensures body.health == 100.0 && body.isFacingRight == None
      ensures grabCandidateId == 0 && isReady == 0
    {
      body := new Pawn(obj);
      grabCandidateId := 0;
      isReady := 0;
    }

    /** `isInAir()`: the vertical speed exceeds 0.07 either way. */
    function IsInAir(): (r: bool)
      reads body.obj
      ensures r <==> body.obj.velocity.y > 0.07 || body.obj.velocity.y < -0.07
    {
      InAir(body.obj.velocity)
    }

    /** The `friction` getter: none in the air, half the x velocity kept on the ground. */
    function Friction(): (r: Vec2)
      reads body.obj
      ensures IsInAir() ==> r == Vec2(1.0, 1.0)
      ensures !IsInAir() ==> r == Vec2(0.5, 1.0)
    {
      if IsInAir() then Vec2(1.0, 1.0) else Vec2(0.5, 1.0)
    }

    /** `syncTo(other)`: take the replicated `isReady`. */
    method SyncTo(other: Player)
      modifies this`isReady
      ensures isReady == other.isReady
    {
      isReady := other.isReady;
    }

    /** `moveLeft()`: accelerate left and face left. */
    method MoveLeft()
      modifies body.obj`velocity, body`isFacingRight
      ensures body.obj.velocity == Vec2(old(body.obj.velocity.x) - StepSpeed(old(body.obj.velocity)), old(body.obj.velocity.y))
      ensures body.isFacingRight == Some(0)
    {
      var v := body.obj.velocity;
      body.obj.velocity := Vec2(v.x - (if IsInAir() then MoveSpeedInAir else MoveSpeed), v.y);
      body.isFacingRight := Some(0);
    }

    /** `moveRight()`: accelerate right and face right. */
    method MoveRight()
      modifies body.obj`velocity, body`isFacingRight
      ensures body.obj.velocity == Vec2(old(body.obj.velocity.x) + StepSpeed(old(body.obj.velocity)), old(body.obj.velocity.y))
      ensures body.isFacingRight == Some(1)
    {
      var v := body.obj.velocity;
      body.obj.velocity := Vec2(v.x + (if IsInAir() then MoveSpeedInAir else MoveSpeed), v.y);
      body.isFacingRight := Some(1);
    }

    /** `jump()`: only from the ground, an upward impulse of 2. */
    method Jump()
      modifies body.obj`velocity
      ensures old(IsInAir()) ==> body.obj.velocity == old(body.obj.velocity)
      ensures !old(IsInAir()) ==> body.obj.velocity == old(body.obj.velocity).Plus(Vec2(0.0, -JumpImpulse))
    {
      if !IsInAir() {
        var v := body.obj.velocity;
        body.obj.velocity := Vec2(v.x, v.y - JumpImpulse);
      }
    }

    /**
     * `toggleWeaponSlot()`: nothing off the authority; with it, drop the
     * weapon when packing, else pick up the grab candidate if there is one.
     */
    function ToggleWeaponSlot(authority: bool, isPacking: bool): (a: SlotAction)
      reads this
      ensures a.DropWeapon? <==> authority && isPacking
      ensures a.PickupWeapon? <==> authority && !isPacking && grabCandidateId != 0
      ensures a.PickupWeapon? ==> a.weaponId == grabCandidateId
    {
      if !authority then NoSlotAction
      else if isPacking then DropWeapon
      else if grabCandidateId != 0 then PickupWeapon(grabCandidateId)
      else NoSlotAction
    }

    /** `canAttack()`: on the authority, while packing a weapon. */
    function CanAttack(authority: bool, isPacking: bool): (r: bool)
      ensures r <==> authority && isPacking
    {
      authority && isPacking
    }

    /**
     * `attack()`: when the player can attack, insist on a weapon and use it;
     * otherwise nothing happens.
     */
    method Attack(authority: bool, isPacking: bool, weapon: Option<Weapon>, world: World, pawns: seq<Pawn>)
      returns (r: Outcome, victim: Option<Pawn>, died: bool)
      requires PawnsOfWorld(pawns, world)
      requires forall p :: p in pawns ==> p.Valid()
      modifies pawns`health, pawns`deaths
      ensures forall p :: p in pawns ==> p.Valid()
      ensures !CanAttack(authority, isPacking) ==> r == Ok && victim.None?
      ensures CanAttack(authority, isPacking) && weapon.None? ==> r == Throw(NoWeaponMessage) && victim.None?
      ensures CanAttack(authority, isPacking) && weapon.Some? && weapon.value.obj.cls != FistWeaponClass ==>
                r == Ok && victim.None?
      ensures CanAttack(authority, isPacking) && weapon.Some? && weapon.value.obj.cls == FistWeaponClass ==>
                && (r.Throw? <==> old(weapon.value.GetWielder(world)).None?)
                && (r.Throw? ==> r.message == UnwieldyMessage)
                && (victim.Some? <==> old(AttackTarget(weapon.value, world)).Some?)
                && (victim.Some? ==> victim.value.obj == old(AttackTarget(weapon.value, world)).value)
      ensures victim.Some? ==> victim.value in pawns
      ensures victim.Some? ==> DamageResult(victim.value.health, died) == DamageStep(old(victim.value.health), DamageAmount)
      ensures victim.None? ==> !died
      ensures forall p :: p in pawns && Some(p) != victim ==> p.health == old(p.health)
    {
      r, victim, died := Ok, None, false;
      if CanAttack(authority, isPacking) {
        r := Utils.Check(weapon.Some?, NoWeaponMessage);
        if r.Throw? {
          return;
        }
        r, victim, died := WeaponAttack(weapon.value, world, pawns);
      }
    }

    /** `canTakeDamage(instigator, reason)`: players do not hurt players. */
    function CanTakeDamage(instigator: Option<DynamicObject>): (r: bool)
      ensures r <==> !(instigator.Some? && instigator.value.cls == PlayerClass)
    {
      BaseCanTakeDamage(instigator) && !(instigator.Some? && instigator.value.cls == PlayerClass)
    }
  }

  /**
   * `applyDamage` never asks `canTakeDamage`: a live player hit by another
   * player loses the full amount although `canTakeDamage` refuses.
   */
  lemma FriendlyFireNotPrevented(victim: Player, attacker: DynamicObject, amount: real)
    requires attacker.cls == PlayerClass && victim.body.health > 0.0
    ensures !victim.CanTakeDamage(Some(attacker))
    ensures DamageStep(victim.body.health, amount).health == victim.body.health - amount
  {
  }
}
