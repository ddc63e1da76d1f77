/**
 * src/utils/lanceUtils.js: queries over world objects.
 *
 * `closestObject` scores each object by its distance from `start` and hands
 * the scores to `bestElement`, which keeps the HIGHEST score. The object it
 * returns is therefore the farthest one, and the model says so.
 */
module LanceUtils {
  import opened Wrappers
  import opened Utils
  import opened Lance

  /** The positions of the objects, in order. */
  function Positions(objs: seq<DynamicObject>): (r: seq<Vec2>)
    reads objs
    ensures |r| == |objs|
    ensures forall i :: 0 <= i < |objs| ==> r[i] == objs[i].position
  {
    seq(|objs|, i requires 0 <= i < |objs| reads objs => objs[i].position)
  }

  /** The score `closestObject` gives a position; the square of `dist(start, p)`. */
  function DistFrom(start: Vec2): Vec2 -> real {
    p => DistSq(start, p)
  }

  /**
   * `closestObject(objectSet, start)`: null exactly for an empty set,
   * otherwise the member `bestElement` picks with the distance from `start`
   * as score (see `ClosestObjectIsFarthest`).
   */
  function ClosestObject(objectSet: seq<DynamicObject>, start: Vec2): (r: Option<DynamicObject>)
    reads objectSet
    ensures r.None? <==> |objectSet| == 0
    ensures r.Some? ==> r.value in objectSet
  {
    var i := BestOf(Positions(objectSet), DistFrom(start));
    if i == -1 then None else Some(objectSet[i])
  }

  /**
   * The object `closestObject` returns is at the GREATEST distance from
   * `start`, and it is the first such object in `objectSet`.
   */
  lemma ClosestObjectIsFarthest(objectSet: seq<DynamicObject>, start: Vec2)
    requires |objectSet| > 0
    ensures exists k :: 0 <= k < |objectSet| && Some(objectSet[k]) == ClosestObject(objectSet, start)
              && (forall j :: 0 <= j < |objectSet| ==>
                    DistSq(start, objectSet[j].position) <= DistSq(start, objectSet[k].position))
              && (forall j :: 0 <= j < k ==>
                    DistSq(start, objectSet[j].position) < DistSq(start, objectSet[k].position))
  {
    var ps := Positions(objectSet);
    var k := BestOf(ps, DistFrom(start));
    assert DistFrom(start)(ps[0]) >= 0.0;
    assert k != -1;
    assert forall j :: 0 <= j < |ps| ==> DistFrom(start)(ps[j]) == DistSq(start, objectSet[j].position);
  }

  /**
   * Scoring by the true distance, any non-negative function whose square is
   * `DistSq`, selects the same object as scoring by `DistSq`.
   */
  lemma ClosestObjectByTrueDistance(objectSet: seq<DynamicObject>, start: Vec2, dist: Vec2 -> real)
    requires forall p :: dist(p) >= 0.0 && dist(p) * dist(p) == DistSq(start, p)
    ensures BestOf(Positions(objectSet), dist) == BestOf(Positions(objectSet), DistFrom(start))
  {
    var ps := Positions(objectSet);
    forall i, j | 0 <= i < |ps| && 0 <= j < |ps|
      ensures dist(ps[i]) < dist(ps[j]) <==> DistFrom(start)(ps[i]) < DistFrom(start)(ps[j])
    {
      SquareLessMonotone(dist(ps[i]), dist(ps[j]));
    }
    BestOfOrderInvariant(ps, dist, DistFrom(start));
  }

  /** `a` is `b` with some elements dropped and the rest kept in order. */
  predicate IsSubsequence<T(==)>(a: seq<T>, b: seq<T>)
    decreases |b|
  {
    if |b| == 0 then |a| == 0
    else (|a| > 0 && a[0] == b[0] && IsSubsequence(a[1..], b[1..])) || IsSubsequence(a, b[1..])
  }

  /** The test `objectsInRange` applies to one object. */
  predicate InRange(o: DynamicObject, start: Vec2, maxDistance: real, ignored: seq<DynamicObject>)
    reads o
  {
    o !in ignored && DistBelow(start, o.position, maxDistance)
  }

  /**
   * `objectsInRange(objectSet, start, maxDistance, ignored)`: the objects not
   * in `ignored` whose distance from `start` is strictly below `maxDistance`,
   * in their original order.
   */
  function ObjectsInRange(objectSet: seq<DynamicObject>, start: Vec2, maxDistance: real,
                          ignored: seq<DynamicObject>): (r: seq<DynamicObject>)
    reads objectSet
    ensures IsSubsequence(r, objectSet)
    ensures forall o :: o in r ==> o in objectSet && InRange(o, start, maxDistance, ignored)
    ensures forall o :: o in objectSet && InRange(o, start, maxDistance, ignored) ==> o in r
  {
    if |objectSet| == 0 then []
    else
      var rest := ObjectsInRange(objectSet[1..], start, maxDistance, ignored);
      if InRange(objectSet[0], start, maxDistance, ignored) then
        assert ([objectSet[0]] + rest)[1..] == rest;
        [objectSet[0]] + rest
      else rest
  }

  /**
   * `getNonStaticObjects(world)`, given the world's objects in world order:
   * those whose `isStatic` is 0, in order.
   */
  function GetNonStaticObjects(objs: seq<DynamicObject>): (r: seq<DynamicObject>)
    reads objs
    ensures IsSubsequence(r, objs)
    ensures forall o :: o in r ==> o in objs && o.isStatic == 0
    ensures forall o :: o in objs && o.isStatic == 0 ==> o in r
  {
    if |objs| == 0 then []
    else
      var rest := GetNonStaticObjects(objs[1..]);
      if objs[0].isStatic == 0 then
        assert ([objs[0]] + rest)[1..] == rest;
        [objs[0]] + rest
      else rest
  }

  /** `pawnsInWorld(world)`: the world's pawns, in world order. */
  function PawnsOf(objs: seq<DynamicObject>): (r: seq<DynamicObject>)
    ensures IsSubsequence(r, objs)
    ensures forall o :: o in r ==> o in objs && o.cls.IsPawn()
    ensures forall o :: o in objs && o.cls.IsPawn() ==> o in r
  {
    if |objs| == 0 then []
    else
      var rest := PawnsOf(objs[1..]);
      if objs[0].cls.IsPawn() then
        assert ([objs[0]] + rest)[1..] == rest;
        [objs[0]] + rest
      else rest
  }

  /** A rectangle `{x, y, w, h}`. */
  datatype Rect = Rect(x: real, y: real, w: real, h: real)

  /**
   * `makeInvisibleWall(gameEngine, rect, classOverride)`: a new static object
   * covering `rect`, of class `classOverride` or plain `DynamicObject`. Its
   * id comes from the world's id counter, as every new lance object's does.
   */
  method MakeInvisibleWall(world: World, rect: Rect, classOverride: Option<ObjectClass>)
    returns (wall: DynamicObject)
    requires world.Valid()
    modifies world`idCount
    ensures world.Valid()
    ensures fresh(wall)
    ensures wall.id !in world.Ids() && wall.id >= old(world.idCount) && world.idCount == wall.id + 1
    ensures wall.cls == (if classOverride.Some? then classOverride.value else PlainObject)
    ensures wall.isStatic == 1 && wall.position == Vec2(rect.x, rect.y)
    ensures wall.width == Some(rect.w) && wall.height == Some(rect.h)
    ensures wall.playerId == 0 && wall.velocity == Vec2(0.0, 0.0)
  {
    var id := world.GetNewId();
    var cls := if classOverride.Some? then classOverride.value else PlainObject;
    wall := new DynamicObject(id, cls, Props(Vec2(rect.x, rect.y), Some(rect.w), Some(rect.h), 1));
  }
}
