/**
 * src/core/baseWeapon.js: a world object that remembers which object wields
 * it, by id, with 0 meaning "nobody".
 */
module Weapons {
  import opened Wrappers
  import opened Lance

  /** The sentinel `wielderId` of a weapon nobody holds. */
  const Unwielded: int := 0

  /** `WeaponBase`. */
  class Weapon {
    const obj: DynamicObject
    /** The object id of the wielder (which could be an NPC). */
    var wielderId: int

    constructor(obj: DynamicObject)
      requires obj.cls.IsWeapon()
      ensures this.obj == obj && wielderId == Unwielded
      ensures !IsWielded()
    {
      this.obj := obj;
      wielderId := Unwielded;
    }

    /** `isWielded()`. */
    function IsWielded(): (r: bool)
      reads this
      ensures r <==> wielderId != Unwielded
    {
      wielderId != Unwielded
    }

    /**
     * `getWielder()`: nothing when unwielded, otherwise the world object
     * whose id is `wielderId`, if the world still holds one.
     */
    function GetWielder(world: World): (r: Option<DynamicObject>)
      reads this, world
      ensures !IsWielded() ==> r.None?
      ensures IsWielded() ==> (r.Some? <==> wielderId in world.Ids())
      ensures r.Some? ==> r.value in world.objects && r.value.id == wielderId
    {
      if IsWielded() then world.QueryById(wielderId) else None
    }

    /** `syncTo(other)`: take the replicated `wielderId`. */
    method SyncTo(other: Weapon)
      modifies this`wielderId
      ensures wielderId == other.wielderId
    {
      wielderId := other.wielderId;
    }
  }

  /**
   * Player 1's object id is the unwielded sentinel, so a weapon wielded by
   * player 1 reports itself unwielded and finds no wielder, even while
   * player 1 is in the world.
   */
  lemma WieldedByPlayer1LooksUnwielded(weapon: Weapon, world: World)
    requires weapon.wielderId == Player1Id
    requires Player1Id in world.Ids()
    ensures !weapon.IsWielded()
    ensures weapon.GetWielder(world).None?
  {
  }
}
