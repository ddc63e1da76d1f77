/**
 * The part of the lance-gg game engine that the game rules lean on: the
 * replicated `DynamicObject` and the `GameWorld` that holds the objects.
 *
 * lance keeps the world's objects in a dictionary keyed by their integer id,
 * and JavaScript visits integer keys in ascending order, so every query sees
 * the objects in id order. `World.objects` is therefore kept sorted by id.
 * Classes of the game that extend `DynamicObject` are told apart by an
 * `ObjectClass` tag, which is what `instanceof` tests and what
 * `this.constructor.initialHealth` reads.
 */
module Lance {
  import opened Wrappers
  import opened Utils

  /** The runtime class of a world object. */
  datatype ObjectClass =
    | PlainObject      // lance's DynamicObject itself (walls, the floor)
    | PawnClass        // BasePawn
    | PlayerClass      // the Player of src/pawns/player.js
    | EnemyClass       // the BaseEnemy of src/core/baseEnemy.js
    | AlienGoonClass
    | AlienBossClass
    | LegacyEnemyClass // the BaseEnemy of src/pawns/baseEnemy.js
    | TestEnemyClass
    | WeaponClass      // WeaponBase
    | FistWeaponClass
    | ElevatorClass
    | LegacyPlayerClass // the Player of src/core/player.js
  {
    /** `instanceof BasePawn`. */
    predicate IsPawn() {
      this in {PawnClass, PlayerClass, EnemyClass, AlienGoonClass, AlienBossClass, LegacyEnemyClass, TestEnemyClass}
    }

    /** `instanceof BaseEnemy` for the enemy of src/core/baseEnemy.js. */
    predicate IsEnemy() {
      this in {EnemyClass, AlienGoonClass, AlienBossClass}
    }

    /** `instanceof WeaponBase`. */
    predicate IsWeapon() {
      this in {WeaponClass, FistWeaponClass}
    }
  }

  /** Object ids the game reserves for its two players. */
  const Player1Id: int := 0
  const Player2Id: int := 1

  /** The construction properties lance's `DynamicObject` accepts. */
  datatype Props = Props(position: Vec2, width: Option<real>, height: Option<real>, isStatic: int)

  /** Properties left at lance's defaults, apart from the position. */
  function At(p: Vec2): Props {
    Props(p, None, None, 0)
  }

  /** lance's `DynamicObject`: an id, an owner and a body in the plane. */
  class DynamicObject {
    const id: int
    const cls: ObjectClass
    /** Owner id; 0 when no client owns the object. */
    var playerId: int
    var position: Vec2
    var velocity: Vec2
    var isStatic: int
    const width: Option<real>
    const height: Option<real>

    constructor(id: int, cls: ObjectClass, props: Props)
      ensures this.id == id && this.cls == cls
      ensures playerId == 0 && velocity == Vec2(0.0, 0.0)
      ensures position == props.position && isStatic == props.isStatic
      ensures width == props.width && height == props.height
    {
      this.id := id;
      this.cls := cls;
      playerId := 0;
      position := props.position;
      velocity := Vec2(0.0, 0.0);
      isStatic := props.isStatic;
      width := props.width;
      height := props.height;
    }
  }

  /** The ids of a sequence of objects. */
  function IdsOf(objs: seq<DynamicObject>): (r: set<int>)
    ensures forall o :: o in objs ==> o.id in r
    ensures forall k :: k in r ==> exists o :: o in objs && o.id == k
  {
    set o | o in objs :: o.id
  }

  /** Strictly ascending ids: the order in which lance visits the world. */
  predicate SortedById(objs: seq<DynamicObject>) {
    forall i, j :: 0 <= i < j < |objs| ==> objs[i].id < objs[j].id
  }

  /** `queryObject({ id })`: the object with that id, if any. */
  function FindById(objs: seq<DynamicObject>, id: int): (r: Option<DynamicObject>)
    ensures r.Some? <==> id in IdsOf(objs)
    ensures r.Some? ==> r.value in objs && r.value.id == id
  {
    if |objs| == 0 then None
    else if objs[0].id == id then Some(objs[0])
    else FindById(objs[1..], id)
  }

  /** `addObject`: the object takes the slot of its id, in id order. */
  function InsertById(objs: seq<DynamicObject>, obj: DynamicObject): (r: seq<DynamicObject>)
    requires SortedById(objs)
    ensures SortedById(r)
    ensures obj in r
    ensures forall o :: o in r ==> o == obj || (o in objs && o.id != obj.id)
    ensures forall o :: o in objs && o.id != obj.id ==> o in r
  {
    if |objs| == 0 then [obj]
    else if obj.id < objs[0].id then
      AboveHead(objs);
      ConsSorted(obj, objs);
      [obj] + objs
    else if obj.id == objs[0].id then
      AboveHead(objs);
      ConsSorted(obj, objs[1..]);
      [obj] + objs[1..]
    else
      var rest := InsertById(objs[1..], obj);
      AboveHead(objs);
      ConsSorted(objs[0], rest);
      [objs[0]] + rest
  }

  /** In a sorted sequence every later object has a larger id than the first. */
  lemma AboveHead(objs: seq<DynamicObject>)
    requires SortedById(objs) && |objs| > 0
    ensures SortedById(objs[1..])
    ensures forall o :: o in objs[1..] ==> o.id > objs[0].id
  {
    forall o | o in objs[1..]
      ensures o.id > objs[0].id
    {
      var j :| 0 <= j < |objs[1..]| && objs[1..][j] == o;
      assert objs[j + 1] == o;
    }
  }

  lemma ConsSorted(x: DynamicObject, rest: seq<DynamicObject>)
    requires SortedById(rest)
    requires forall o :: o in rest ==> o.id > x.id
    ensures SortedById([x] + rest)
  {
    var s := [x] + rest;
    forall i, j | 0 <= i < j < |s|
      ensures s[i].id < s[j].id
    {
      assert s[j] == rest[j - 1];
      if i > 0 {
        assert s[i] == rest[i - 1];
      } else {
        assert rest[j - 1] in rest;
      }
    }
  }

  /** In id order an id names one object: looking it up finds that object. */
  lemma {:induction false} FindInSorted(objs: seq<DynamicObject>, o: DynamicObject)
    requires SortedById(objs) && o in objs
    ensures FindById(objs, o.id) == Some(o)
  {
    if objs[0] != o {
      AboveHead(objs);
      FindInSorted(objs[1..], o);
    }
  }

  /**
   * After `addObject(obj)` the id of `obj` finds `obj`, and every other id
   * finds what it found before.
   */
  lemma FindAfterInsert(objs: seq<DynamicObject>, obj: DynamicObject, id: int)
    requires SortedById(objs)
    ensures FindById(InsertById(objs, obj), obj.id) == Some(obj)
    ensures id != obj.id ==> FindById(InsertById(objs, obj), id) == FindById(objs, id)
  {
    var r := InsertById(objs, obj);
    FindInSorted(r, obj);
    if id != obj.id {
      var before := FindById(objs, id);
      if before.Some? {
        FindInSorted(r, before.value);
      } else {
        assert forall o :: o in r ==> o.id != id;
      }
    }
  }

  /** Adding an object under an unused id adds exactly that object. */
  lemma InsertFresh(objs: seq<DynamicObject>, obj: DynamicObject)
    requires SortedById(objs) && obj.id !in IdsOf(objs)
    ensures forall o :: o in InsertById(objs, obj) <==> o in objs || o == obj
  {
  }

  /** `removeObjectFromWorld(id)`: every object with that id leaves the world. */
  function RemoveById(objs: seq<DynamicObject>, id: int): (r: seq<DynamicObject>)
    requires SortedById(objs)
    ensures SortedById(r)
    ensures forall o :: o in r ==> o in objs && o.id != id
    ensures forall o :: o in objs && o.id != id ==> o in r
  {
    if |objs| == 0 then []
    else
      AboveHead(objs);
      var rest := RemoveById(objs[1..], id);
      if objs[0].id == id then rest
      else
        ConsSorted(objs[0], rest);
        [objs[0]] + rest
  }

  /** An id no smaller than every id of the objects. */
  function UpperId(objs: seq<DynamicObject>): (r: int)
    ensures forall o :: o in objs ==> o.id <= r
  {
    if |objs| == 0 then 0
    else
      var m := UpperId(objs[1..]);
      if objs[0].id > m then objs[0].id else m
  }

  /** The objects of a given class, in world order: `queryObjects({ instanceType })`. */
  function OfClass(objs: seq<DynamicObject>, c: ObjectClass): (r: seq<DynamicObject>)
    ensures forall o :: o in r ==> o in objs && o.cls == c
    ensures forall o :: o in objs && o.cls == c ==> o in r
  {
    if |objs| == 0 then []
    else if objs[0].cls == c then [objs[0]] + OfClass(objs[1..], c)
    else OfClass(objs[1..], c)
  }

  /** Picking the objects of one class keeps them in id order. */
  lemma {:induction false} OfClassSorted(objs: seq<DynamicObject>, c: ObjectClass)
    requires SortedById(objs)
    ensures SortedById(OfClass(objs, c))
  {
    if |objs| > 0 {
      AboveHead(objs);
      OfClassSorted(objs[1..], c);
      if objs[0].cls == c {
        ConsSorted(objs[0], OfClass(objs[1..], c));
      }
    }
  }

  /** lance's `GameWorld`, with the id counter and the pending-kill queue of its engine. */
  class World {
    var objects: seq<DynamicObject>
    var idCount: int
    /** Ids passed to `markPendingKill`, oldest first; the engine removes them later. */
    var pendingKill: seq<int>

    ghost predicate Valid()
      reads this
    {
      SortedById(objects) && 0 <= idCount
    }

    constructor()
      ensures Valid()
      ensures objects == [] && idCount == 0 && pendingKill == []
    {
      objects := [];
      idCount := 0;
      pendingKill := [];
    }

    function Ids(): set<int>
      reads this
    {
      IdsOf(objects)
    }

    /** `queryObject({ id })` (and `objectById`). */
    function QueryById(id: int): (r: Option<DynamicObject>)
      reads this
      ensures r.Some? <==> id in Ids()
      ensures r.Some? ==> r.value in objects && r.value.id == id
    {
      FindById(objects, id)
    }

    /**
     * `getNewId`: the first id from the counter on that no object in the
     * world holds; the counter moves past it.
     */
    method GetNewId() returns (id: int)
      requires Valid()
      modifies this`idCount
      ensures Valid()
      ensures old(idCount) <= id && id !in Ids()
      ensures forall k :: old(idCount) <= k < id ==> k in Ids()
      ensures idCount == id + 1
    {
      id := idCount;
      while id in Ids()
        invariant old(idCount) <= id
        invariant forall k :: old(idCount) <= k < id ==> k in Ids()
        decreases UpperId(objects) - id
      {
        id := id + 1;
      }
      idCount := id + 1;
    }

    /** `addObjectToWorld(obj)`: the object is stored under its id. */
    method AddObject(obj: DynamicObject)
      requires Valid()
      modifies this`objects
      ensures Valid()
      ensures objects == InsertById(old(objects), obj)
    {
      objects := InsertById(objects, obj);
    }

    /** `removeObjectFromWorld(id)`. */
    method RemoveObject(id: int)
      requires Valid()
      modifies this`objects
      ensures Valid()
      ensures objects == RemoveById(old(objects), id)
    {
      objects := RemoveById(objects, id);
    }

    /** `markPendingKill(id)`: queue the object for removal at the end of the step. */
    method MarkPendingKill(id: int)
      modifies this`pendingKill
      ensures pendingKill == old(pendingKill) + [id]
    {
      pendingKill := pendingKill + [id];
    }
  }
}
