/**
 * src/core/elevator.js: a static platform that, started on the server,
 * builds four invisible walls around itself, puts both players inside and
 * glides from `startPos` to `endPos` over `duration` ticks, then tears the
 * walls down.
 *
 * The engine's `postStep` event drives `Tick`; the half-second teardown
 * timer is counted in `teardownsPending` and runs when `FireTeardown` is
 * called. The authority flag and the engine's `getPlayers()` result are
 * inputs.
 */
module Elevators {
  import opened Wrappers
  import opened Utils
  import opened MathUtils
  import opened Lance
  import opened LanceUtils

  /** The debug switch of src/utils/constants.js; off. */
  const NoLogo: bool := false

  /** Ticks an elevator ride lasts. */
  const Duration: int := if NoLogo then 30 else 1000

  const ServerOnlyMessage: string := "must only startElevatorSequence on server"
  const TwoPlayersMessage: string := "must be 2 players for elevator to start"

  /** Where wall `i` sits relative to the elevator: top, bottom, left, right. */
  function WallOffset(i: int): (v: Vec2)
    requires 0 <= i < 4
  {
    [Vec2(0.0, -12.0), Vec2(0.0, 48.0), Vec2(0.0, 0.0), Vec2(96.0, 0.0)][i]
  }

  /** The rectangle of wall `i` when the elevator is at `at`. */
  function WallRect(at: Vec2, i: int): (r: Rect)
    requires 0 <= i < 4
    ensures Vec2(r.x, r.y) == at.Plus(WallOffset(i))
    ensures i < 2 ==> r.w == 112.0 && r.h == 16.0
    ensures 2 <= i ==> r.w == 16.0 && r.h == 64.0
  {
    var p := at.Plus(WallOffset(i));
    if i < 2 then Rect(p.x, p.y, 112.0, 16.0) else Rect(p.x, p.y, 16.0, 64.0)
  }

  /** The world holds, under `id`, a static wall covering `rect`. */
  ghost predicate WallAt(world: World, id: int, rect: Rect)
    reads world, world.objects
  {
    var o := world.QueryById(id);
    && o.Some?
    && o.value.cls == PlainObject
    && o.value.isStatic == 1
    && o.value.position == Vec2(rect.x, rect.y)
    && o.value.width == Some(rect.w) && o.value.height == Some(rect.h)
  }

  /** `1 - animTime / duration`: how far through the ride the elevator is. */
  function Bias(animTime: int): real {
    1.0 - animTime as real / Duration as real
  }

  /**
   * The position of an elevator with `animTime` ticks to go:
   * `startPos.lerp(endPos, bias)`; the start with all ticks to go, the end
   * with none.
   */
  function RidePosition(startPos: Vec2, endPos: Vec2, animTime: int): (p: Vec2)
    ensures animTime == Duration ==> p == startPos
    ensures animTime == 0 ==> p == endPos
  {
    LerpVec2(startPos, endPos, Bias(animTime))
  }

  /** During the ride the elevator stays between its start and its end, coordinate by coordinate. */
  lemma RideStaysBetween(startPos: Vec2, endPos: Vec2, animTime: int)
    requires 0 <= animTime <= Duration
    ensures var p := RidePosition(startPos, endPos, animTime);
            && (startPos.x <= endPos.x ==> startPos.x <= p.x <= endPos.x)
            && (endPos.x <= startPos.x ==> endPos.x <= p.x <= startPos.x)
            && (startPos.y <= endPos.y ==> startPos.y <= p.y <= endPos.y)
            && (endPos.y <= startPos.y ==> endPos.y <= p.y <= startPos.y)
  {
    var b := Bias(animTime);
    assert 0.0 <= animTime as real / Duration as real <= 1.0;
    LerpScalarBetween(startPos.x, endPos.x, b);
    LerpScalarBetween(startPos.y, endPos.y, b);
  }

  /** `isInElevator(position)` for an elevator at `at`: strictly inside the 112 by 64 box. */
  predicate InBox(at: Vec2, position: Vec2) {
    at.x < position.x < at.x + 112.0 && at.y < position.y < at.y + 64.0
  }

  /** Ascending ids, none in `used`, all below `bound`. */
  predicate FreshAscending(ids: seq<int>, used: set<int>, bound: int) {
    && (forall j :: 0 <= j < |ids| ==> ids[j] !in used && ids[j] < bound)
    && (forall j, k :: 0 <= j < k < |ids| ==> ids[j] < ids[k])
  }

  /** The ids of `walls` leave the world one after the other. */
  function RemoveAll(objs: seq<DynamicObject>, ids: seq<int>): (r: seq<DynamicObject>)
    requires SortedById(objs)
    ensures SortedById(r)
    ensures forall o :: o in r ==> o in objs && o.id !in ids
    ensures forall o :: o in objs && o.id !in ids ==> o in r
    decreases |ids|
  {
    if |ids| == 0 then objs
    else RemoveById(RemoveAll(objs, ids[..|ids| - 1]), ids[|ids| - 1])
  }

  /** The `Elevator` of src/core/elevator.js. */
  class Elevator {
    const obj: DynamicObject
    /** Ids of the walls, in the order they were built. */
    var walls: seq<int>
    var startPos: Vec2
    var endPos: Vec2
    /** Ticks of the ride still to go. */
    var animTime: int
    var isElevating: int
    /** Teardown timers armed and not yet run. */
    var teardownsPending: nat

    /** The elevator's world object is of the elevator class. */
    predicate Valid()
    {
      obj.cls == ElevatorClass
    }

    /** No two walls share an id, and none has the elevator's. */
    predicate WallIdsApart()
      reads this
    {
      && (forall i, j :: 0 <= i < j < |walls| ==> walls[i] != walls[j])
      && (forall i :: 0 <= i < |walls| ==> walls[i] != obj.id)
    }

    constructor(obj: DynamicObject)
      requires obj.cls == ElevatorClass
      modifies obj`isStatic
      ensures Valid()
      ensures this.obj == obj && obj.isStatic == 1
      ensures walls == [] && startPos == Vec2(0.0, 0.0) && endPos == Vec2(0.0, 0.0)
      ensures animTime == 0 && isElevating == 0 && teardownsPending == 0
    {
      this.obj := obj;
      walls := [];
      startPos := Vec2(0.0, 0.0);
      endPos := Vec2(0.0, 0.0);
      animTime := 0;
      isElevating := 0;
      teardownsPending := 0;
      new;
      obj.isStatic := 1;
    }

    /** `isInElevator(position)`. */
    function IsInElevator(position: Vec2): (r: bool)
      reads obj
      ensures r <==> && obj.position.x < position.x < obj.position.x + 112.0
                     && obj.position.y < position.y < obj.position.y + 64.0
    {
      InBox(obj.position, position)
    }

    /** Wall `j` of `built` covers rectangle `j` around `startPos`. */
    ghost predicate WallsAt(world: World, built: seq<int>)
      reads this`startPos, world, world.objects
    {
      |built| <= 4 && forall j :: 0 <= j < |built| ==> WallAt(world, built[j], WallRect(startPos, j))
    }

    /**
     * `built` lists walls of the loop so far: each covers its rectangle, and
     * the ids are ascending, were not in use before (`ids0`) and are below
     * the id counter.
     */
    ghost predicate Built(world: World, built: seq<int>, ids0: set<int>)
      reads this`startPos, world, world.objects
    {
      WallsAt(world, built) && FreshAscending(built, ids0, world.idCount)
    }

    /**
     * `makeInvisibleWall` then `addObjectToWorld`: a fresh wall covering
     * `rect` is stored under an id from the id counter that no object held,
     * and it is the only object the world gains; every other id finds what
     * it found before.
     */
    method InsertWall(world: World, rect: Rect) returns (wall: DynamicObject)
      requires world.Valid()
      modifies world`objects, world`idCount
      ensures world.Valid()
      ensures fresh(wall)
      ensures forall o :: o in world.objects <==> o in old(world.objects) || o == wall
      ensures WallAt(world, wall.id, rect)
      ensures wall.id !in old(world.Ids()) && old(world.idCount) <= wall.id < world.idCount
      ensures forall k, r :: k != wall.id && old(WallAt(world, k, r)) ==> WallAt(world, k, r)
    {
      wall := MakeInvisibleWall(world, rect, None);
      ghost var before := world.objects;
      world.AddObject(wall);
      InsertFresh(before, wall);
      forall k, r | k != wall.id && old(WallAt(world, k, r))
        ensures WallAt(world, k, r)
      {
        FindAfterInsert(before, wall, k);
      }
      FindAfterInsert(before, wall, wall.id);
    }

    /**
     * One pass of the wall-building loop of `startElevatorSequence()`: the
     * next wall enters the world, and the walls built before stay as they
     * are. The world gains that wall and nothing else.
     */
    method AddWall(world: World, built: seq<int>, ghost ids0: set<int>) returns (more: seq<int>, wall: DynamicObject)
      requires world.Valid() && |built| < 4 && Built(world, built, ids0)
      requires ids0 <= world.Ids()
      modifies world`objects, world`idCount
      ensures world.Valid() && Built(world, more, ids0)
      ensures more == built + [wall.id]
      ensures ids0 <= world.Ids()
      ensures forall o :: o in world.objects <==> o in old(world.objects) || o == wall
    {
      wall := InsertWall(world, WallRect(startPos, |built|));
      more := built + [wall.id];
    }

    /**
     * The wall-building loop of `startElevatorSequence()`: four walls around
     * `startPos` enter the world, with fresh ascending ids from the id
     * counter, and their ids are appended to `walls`.
     */
    method BuildWalls(world: World)
      requires world.Valid()
      modifies this`walls, world`objects, world`idCount
      ensures world.Valid()
      ensures |walls| == |old(walls)| + 4 && walls[..|old(walls)|] == old(walls)
      ensures Built(world, walls[|old(walls)|..], old(world.Ids()))
      ensures forall o :: o in old(world.objects) ==> o in world.objects
      ensures forall o :: o in world.objects ==> o in old(world.objects) || o.id in walls[|old(walls)|..]
    {
      var built: seq<int> := [];
      for i := 0 to 4
        invariant world.Valid()
        invariant |built| == i && walls == old(walls)
        invariant Built(world, built, old(world.Ids()))
        invariant old(world.Ids()) <= world.Ids()
        invariant forall o :: o in old(world.objects) ==> o in world.objects
        invariant forall o :: o in world.objects ==> o in old(world.objects) || o.id in built
      {
        var wall;
        built, wall := AddWall(world, built, old(world.Ids()));
      }
      walls := walls + built;
      assert walls[|old(walls)|..] == built;
    }

    /**
     * The second half of `startElevatorSequence()`: throw unless there are
     * exactly two players, or else put the first at (32, 16) and the second
     * at (64, 16) from the elevator and start the ride. No wall moves.
     */
    method BoardPlayers(world: World, players: seq<DynamicObject>, ghost built: seq<int>, ghost ids0: set<int>)
      returns (r: Outcome)
      requires Valid()
      requires forall p :: p in players ==> p.cls == PlayerClass || p.cls == LegacyPlayerClass
      requires forall i, j :: 0 <= i < j < |players| ==> players[i] != players[j]
      requires Built(world, built, ids0)
      modifies this`animTime, this`isElevating, players`position
      ensures Built(world, built, ids0)
      ensures |players| != 2 ==> r == Throw(TwoPlayersMessage)
      ensures |players| == 2 ==> r == Ok
      ensures r.Throw? ==> animTime == old(animTime) && isElevating == old(isElevating)
      ensures r.Throw? ==> forall p :: p in players ==> p.position == old(p.position)
      ensures r == Ok ==> players[0].position == obj.position.Plus(Vec2(32.0, 16.0))
                          && players[1].position == obj.position.Plus(Vec2(64.0, 16.0))
      ensures r == Ok ==> animTime == Duration && isElevating == 1
    {
      r := Check(|players| == 2, TwoPlayersMessage);
      if r.Throw? {
        return;
      }
      players[0].position := obj.position.Plus(Vec2(32.0, 16.0));
      players[1].position := obj.position.Plus(Vec2(64.0, 16.0));
      forall i | 0 <= i < |built|
        ensures WallAt(world, built[i], WallRect(startPos, i))
      {
        var o := world.QueryById(built[i]);
        assert old(WallAt(world, built[i], WallRect(startPos, i)));
        assert o.value != players[0] && o.value != players[1];
      }
      animTime := Duration;
      isElevating := 1;
    }

    /**
     * `startElevatorSequence()`: without the authority, throw and change
     * nothing. Otherwise build the four walls around `startPos`; then throw
     * unless there are exactly two players (the walls stay), or else put the
     * players inside and start the ride.
     */
    method StartElevatorSequence(authority: bool, world: World, players: seq<DynamicObject>)
      returns (r: Outcome)
      requires Valid() && world.Valid()
      requires forall p :: p in players ==> p.cls == PlayerClass || p.cls == LegacyPlayerClass
      requires forall i, j :: 0 <= i < j < |players| ==> players[i] != players[j]
      modifies this`walls, this`animTime, this`isElevating, world`objects, world`idCount, players`position
      ensures world.Valid()
      ensures !authority ==> r == Throw(ServerOnlyMessage) && walls == old(walls)
                             && world.objects == old(world.objects) && world.idCount == old(world.idCount)
      ensures authority ==> |walls| == |old(walls)| + 4 && walls[..|old(walls)|] == old(walls)
      ensures authority ==> Built(world, walls[|old(walls)|..], old(world.Ids()))
      ensures forall o :: o in old(world.objects) ==> o in world.objects
      ensures authority ==> forall o :: o in world.objects ==> o in old(world.objects) || o.id in walls[|old(walls)|..]
      ensures authority && |players| != 2 ==> r == Throw(TwoPlayersMessage)
      ensures authority && |players| == 2 ==> r == Ok
      ensures r.Throw? ==> animTime == old(animTime) && isElevating == old(isElevating)
      ensures r.Throw? ==> forall p :: p in players ==> p.position == old(p.position)
      ensures r == Ok ==> players[0].position == obj.position.Plus(Vec2(32.0, 16.0))
                          && players[1].position == obj.position.Plus(Vec2(64.0, 16.0))
      ensures r == Ok ==> IsInElevator(players[0].position) && IsInElevator(players[1].position)
      ensures r == Ok ==> animTime == Duration && isElevating == 1
    {
      r := Check(authority, ServerOnlyMessage);
      if r.Throw? {
        return;
      }
      var n := |walls|;
      BuildWalls(world);
      r := BoardPlayers(world, players, walls[n..], old(world.Ids()));
    }

    /**
     * One wall move of `tick()`: the object with id `id`, if the world holds
     * one, goes to `offset` from the elevator; no other object moves.
     */
    method MoveWall(world: World, id: int, offset: Vec2)
      modifies world.objects`position
      ensures var w := world.QueryById(id);
              w.Some? ==> w.value.position == old(obj.position).Plus(offset)
      ensures forall o :: o in world.objects && o.id != id ==> o.position == old(o.position)
      ensures obj.id != id ==> obj.position == old(obj.position)
    {
      var w := world.QueryById(id);
      if w.Some? {
        w.value.position := obj.position.Plus(offset);
      }
    }

    /**
     * The wall moves of `tick()`: each wall present in the world goes to its
     * offset from the elevator. With the wall ids apart, no wall is the
     * elevator, so the elevator stays put, and nothing else moves.
     */
    method MoveWalls(world: World)
      requires |walls| == 4
      modifies world.objects`position
      ensures WallIdsApart() ==> obj.position == old(obj.position)
      ensures WallIdsApart() ==>
                forall i :: 0 <= i < 4 && world.QueryById(walls[i]).Some? ==>
                  world.QueryById(walls[i]).value.position == obj.position.Plus(WallOffset(i))
      ensures WallIdsApart() ==>
                forall o :: o in world.objects && o.id !in walls ==> o.position == old(o.position)
    {
      MoveWall(world, walls[0], WallOffset(0));
      MoveWall(world, walls[1], WallOffset(1));
      MoveWall(world, walls[2], WallOffset(2));
      MoveWall(world, walls[3], WallOffset(3));
    }

    /**
     * `tick()`: with the authority, while ticks remain and there are exactly
     * four walls, take one tick off, move to the ride position for the ticks
     * left, carry the walls along at their offsets and, on the last tick,
     * arm the teardown; with the authority otherwise, stop elevating;
     * without it, nothing. Positions are as stated when the wall ids are
     * apart (`StartElevatorSequence` makes them so).
     */
    method Tick(authority: bool, world: World)
      modifies this`animTime, this`isElevating, this`teardownsPending, obj`position, world.objects`position
      ensures var animating := old(authority && animTime > 0 && |walls| == 4);
              && (animating ==> animTime == old(animTime) - 1 && isElevating == old(isElevating))
              && (animating && animTime == 0 ==> teardownsPending == old(teardownsPending) + 1)
              && (animating && animTime != 0 ==> teardownsPending == old(teardownsPending))
              && (!animating ==> animTime == old(animTime) && teardownsPending == old(teardownsPending))
              && (!animating && authority ==> isElevating == 0)
              && (!authority ==> isElevating == old(isElevating))
      ensures !old(authority && animTime > 0 && |walls| == 4) ==>
                obj.position == old(obj.position) && forall o :: o in world.objects ==> o.position == old(o.position)
      ensures old(authority && animTime > 0 && |walls| == 4) && WallIdsApart() ==>
                && obj.position == RidePosition(startPos, endPos, animTime)
                && (forall i :: 0 <= i < 4 && world.QueryById(walls[i]).Some? ==>
                      world.QueryById(walls[i]).value.position == obj.position.Plus(WallOffset(i)))
                && (forall o :: o in world.objects && o != obj && o.id !in walls ==> o.position == old(o.position))
    {
      if authority && animTime > 0 && |walls| == 4 {
        animTime := animTime - 1;
        obj.position := RidePosition(startPos, endPos, animTime);
        MoveWalls(world);
        if animTime == 0 {
          teardownsPending := teardownsPending + 1;
        }
      } else if authority {
        isElevating := 0;
      }
    }

    /**
     * The teardown timer runs: every wall is queued for removal, elevating
     * stops if there was a wall to remove, and the wall list is emptied.
     */
    method FireTeardown(world: World)
      requires teardownsPending > 0
      modifies this`walls, this`isElevating, this`teardownsPending, world`pendingKill
      ensures world.pendingKill == old(world.pendingKill) + old(walls)
      ensures isElevating == (if |old(walls)| > 0 then 0 else old(isElevating))
      ensures walls == [] && teardownsPending == old(teardownsPending) - 1
    {
      for i := 0 to |walls|
        invariant walls == old(walls) && teardownsPending == old(teardownsPending)
        invariant world.pendingKill == old(world.pendingKill) + walls[..i]
        invariant isElevating == (if i > 0 then 0 else old(isElevating))
      {
        world.MarkPendingKill(walls[i]);
        isElevating := 0;
      }
      assert walls[..|walls|] == walls;
      walls := [];
      teardownsPending := teardownsPending - 1;
    }

    /** `onRemoveFromWorld(gameEngine)`: the walls leave the world with the elevator. */
    method OnRemoveFromWorld(world: World)
      requires world.Valid()
      modifies world`objects
      ensures world.Valid()
      ensures world.objects == RemoveAll(old(world.objects), walls)
      ensures forall o :: o in world.objects ==> o.id !in walls
    {
      for i := 0 to |walls|
        invariant world.Valid()
        invariant world.objects == RemoveAll(old(world.objects), walls[..i])
      {
        assert walls[..i + 1][..i] == walls[..i];
        world.RemoveObject(walls[i]);
      }
      assert walls[..|walls|] == walls;
    }

    /** `syncTo(other)`: take the replicated `isElevating`. */
    method SyncTo(other: Elevator)
      modifies this`isElevating
      ensures isElevating == other.isElevating
    {
      isElevating := other.isElevating;
    }
  }
}
