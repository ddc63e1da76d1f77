/**
 * src/core/player.js: the older player, which moves by shifting its position
 * directly. It is the `Player` class the engine of src/core/moonEngine.js
 * uses.
 *
 * `jump` arms a 10 ms timer that zeroes the vertical velocity; each armed
 * timer is counted in `pendingJumpResets` and runs when `FireJumpReset` is
 * called.
 */
module LegacyPlayers {
  import opened Utils
  import opened Lance

  const MoveSpeed: real := 1.3
  const JumpImpulse: real := 4.0

  /** The `Player` of src/core/player.js. */
  class LegacyPlayer {
    const obj: DynamicObject
    var test: int
    /** Jump timers armed and not yet run. */
    var pendingJumpResets: nat

    constructor(obj: DynamicObject)
      requires obj.cls == LegacyPlayerClass
      ensures this.obj == obj && test == 2 && pendingJumpResets == 0
    {
      this.obj := obj;
      test := 2;
      pendingJumpResets := 0;
    }

    /** `syncTo(other)`: take the replicated `test`. */
    method SyncTo(other: LegacyPlayer)
      modifies this`test
      ensures test == other.test
    {
      test := other.test;
    }

    /** `moveLeft()`: shift 1.3 to the left; y and the velocity stay. */
    method MoveLeft()
      modifies obj`position
      ensures obj.position == Vec2(old(obj.position.x) - MoveSpeed, old(obj.position.y))
    {
      obj.position := Vec2(obj.position.x - MoveSpeed, obj.position.y);
    }

    /** `moveRight()`: shift 1.3 to the right, undoing a `moveLeft` exactly. */
    method MoveRight()
      modifies obj`position
      ensures obj.position == Vec2(old(obj.position.x) + MoveSpeed, old(obj.position.y))
    {
      obj.position := Vec2(obj.position.x + MoveSpeed, obj.position.y);
    }

    /** `jump()`: an upward kick of 4, with a timer armed to stop it. */
    method Jump()
      modifies obj`velocity, this`pendingJumpResets
      ensures obj.velocity == Vec2(old(obj.velocity.x), old(obj.velocity.y) - JumpImpulse)
      ensures pendingJumpResets == old(pendingJumpResets) + 1
    {
      obj.velocity := Vec2(obj.velocity.x, obj.velocity.y - JumpImpulse);
      pendingJumpResets := pendingJumpResets + 1;
    }

    /** The timer armed by `jump` runs: the vertical velocity becomes 0. */
    method FireJumpReset()
      requires pendingJumpResets > 0
      modifies obj`velocity, this`pendingJumpResets
      ensures obj.velocity == Vec2(old(obj.velocity.x), 0.0)
      ensures pendingJumpResets == old(pendingJumpResets) - 1
    {
      obj.velocity := Vec2(obj.velocity.x, 0.0);
      pendingJumpResets := pendingJumpResets - 1;
    }
  }
}
