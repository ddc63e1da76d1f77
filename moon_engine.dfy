/**
 * src/core/moonEngine.js: the game engine's server-side rules: the initial
 * world, which object a connecting client takes over, and how an input
 * reaches the player it is for.
 *
 * The engine's `Player` is the older player of src/core/player.js. Each of
 * its world objects is paired with a `LegacyPlayer` record in `players`.
 * Who owns what is read as the `playerId`s of the world's objects in world
 * order, so joining and leaving are functions on that sequence.
 */
module Engine {
  import opened Wrappers
  import opened Utils
  import opened Lance
  import opened LegacyPlayers

  const InvalidInputMessage: string := "invalid input action. See: MoonEngine::processInput"

  /** The id `server_init` gives the floor. */
  const FloorId: int := 69

  /** The input actions `processInput` knows. */
  datatype Action = Left | Right | Jump | Attack | DebugCollision

  /** The action an input names, if it names one. */
  function ActionOf(input: string): (a: Option<Action>)
    ensures a == Some(Left) <==> input == "left"
    ensures a == Some(Right) <==> input == "right"
    ensures a == Some(Jump) <==> input == "jump"
    ensures a == Some(Attack) <==> input == "attack"
    ensures a == Some(DebugCollision) <==> input == "debugCollision"
    ensures a.None? <==> input !in {"left", "right", "jump", "attack", "debugCollision"}
  {
    if input == "left" then Some(Left)
    else if input == "right" then Some(Right)
    else if input == "jump" then Some(Jump)
    else if input == "attack" then Some(Attack)
    else if input == "debugCollision" then Some(DebugCollision)
    else None
  }

  /** The owners of the objects, in order. */
  function Owners(objs: seq<DynamicObject>): (r: seq<int>)
    reads objs
    ensures |r| == |objs|
    ensures forall i :: 0 <= i < |objs| ==> r[i] == objs[i].playerId
  {
    seq(|objs|, i requires 0 <= i < |objs| reads objs => objs[i].playerId)
  }

  /** The first position of `v` in `s`, or -1. */
  function FirstIndex(s: seq<int>, v: int): (k: int)
    ensures -1 <= k < |s|
    ensures k == -1 <==> v !in s
    ensures k != -1 ==> s[k] == v && v !in s[..k]
  {
    if |s| == 0 then -1
    else if s[0] == v then 0
    else
      var k := FirstIndex(s[1..], v);
      assert k != -1 ==> s[..k + 1] == [s[0]] + s[1..][..k];
      if k == -1 then -1 else k + 1
  }

  /**
   * The owners after `server_playerJoined` for client `pid`: the first
   * object owned by nobody (0) becomes owned by `pid`; with none, nothing
   * changes.
   */
  function Join(owners: seq<int>, pid: int): (r: seq<int>)
    ensures |r| == |owners|
    ensures 0 !in owners ==> r == owners
    ensures 0 in owners ==> r == owners[FirstIndex(owners, 0) := pid]
  {
    var k := FirstIndex(owners, 0);
    if k == -1 then owners else owners[k := pid]
  }

  /**
   * The owners after `server_playerDisconnected` for client `pid`: the
   * first object owned by `pid` is owned by nobody again.
   */
  function Disconnect(owners: seq<int>, pid: int): (r: seq<int>)
    ensures |r| == |owners|
    ensures pid !in owners ==> r == owners
    ensures pid in owners ==> r == owners[FirstIndex(owners, pid) := 0]
  {
    var k := FirstIndex(owners, pid);
    if k == -1 then owners else owners[k := 0]
  }

  /**
   * A client that owned nothing and leaves right after joining leaves the
   * owners as they were.
   */
  lemma JoinThenDisconnect(owners: seq<int>, pid: int)
    requires pid != 0 && pid !in owners
    ensures Disconnect(Join(owners, pid), pid) == owners
  {
    var k := FirstIndex(owners, 0);
    if k != -1 {
      var joined := Join(owners, pid);
      assert joined[..k] == owners[..k];
      assert pid !in joined[..k] && joined[k] == pid;
      assert FirstIndex(joined, pid) == k;
    }
  }

  /**
   * In id order, the first object `pid` owns has the smallest id of all the
   * objects it owns.
   */
  lemma FirstOwnedHasLeastId(objs: seq<DynamicObject>, pid: int)
    requires SortedById(objs) && pid in Owners(objs)
    ensures forall o :: o in objs && o.playerId == pid ==> objs[FirstIndex(Owners(objs), pid)].id <= o.id
  {
    var k := FirstIndex(Owners(objs), pid);
    forall o | o in objs && o.playerId == pid
      ensures objs[k].id <= o.id
    {
      var j :| 0 <= j < |objs| && objs[j] == o;
      assert Owners(objs)[j] == pid;
    }
  }

  /** The world objects of the records, in order. */
  function Objs(ps: seq<LegacyPlayer>): (r: seq<DynamicObject>)
    ensures |r| == |ps|
    ensures forall i :: 0 <= i < |ps| ==> r[i] == ps[i].obj
  {
    seq(|ps|, i requires 0 <= i < |ps| => ps[i].obj)
  }

  /** The first record whose world object is `o`, as an index into `ps`. */
  function RecordIndex(ps: seq<LegacyPlayer>, o: DynamicObject): (k: int)
    ensures -1 <= k < |ps|
    ensures k == -1 <==> o !in Objs(ps)
    ensures k != -1 ==> ps[k].obj == o
  {
    if |ps| == 0 then -1
    else if ps[0].obj == o then 0
    else
      var k := RecordIndex(ps[1..], o);
      assert Objs(ps[1..]) == Objs(ps)[1..];
      if k == -1 then -1 else k + 1
  }

  /** `MoonEngine`, with its world and the records of its players. */
  class MoonEngine {
    const world: World
    var players: seq<LegacyPlayer>

    /**
     * Every player object of the world has exactly one record, and every
     * record is of a player object.
     */
    ghost predicate Valid()
      reads this, world
    {
      && world.Valid()
      && (forall o :: o in world.objects && o.cls == LegacyPlayerClass ==> o in Objs(players))
      && (forall p :: p in players ==> p.obj.cls == LegacyPlayerClass)
      && (forall i, j :: 0 <= i < j < |players| ==> players[i].obj != players[j].obj)
    }

    constructor(world: World)
      requires world.Valid()
      requires forall o :: o in world.objects ==> o.cls != LegacyPlayerClass
      ensures Valid() && this.world == world && players == []
    {
      this.world := world;
      players := [];
    }

    /**
     * `world.queryObject({ playerId, instanceType: Player })`: the record of
     * the first player object in world order owned by `playerId`.
     */
    function OwnedPlayer(playerId: int): (r: Option<LegacyPlayer>)
      requires Valid()
      reads this, world, world.objects
      ensures r.None? <==> forall o :: o in world.objects && o.cls == LegacyPlayerClass ==> o.playerId != playerId
      ensures r.Some? ==> r.value in players && r.value.obj in world.objects && r.value.obj.playerId == playerId
    {
      var candidates := OfClass(world.objects, LegacyPlayerClass);
      assert forall i :: 0 <= i < |candidates| ==> candidates[i] in candidates;
      assert forall o :: o in candidates ==> o in world.objects;
      var k := FirstIndex(Owners(candidates), playerId);
      if k == -1 then None
      else
        var i := RecordIndex(players, candidates[k]);
        Some(players[i])
    }

    /**
     * `queryObject` returns the first match in world order: of all the
     * player objects `playerId` owns, the one found has the smallest id.
     */
    lemma OwnedPlayerIsFirst(playerId: int)
      requires Valid()
      ensures var r := OwnedPlayer(playerId);
              r.Some? ==> forall o :: o in world.objects && o.cls == LegacyPlayerClass && o.playerId == playerId ==>
                            r.value.obj.id <= o.id
    {
      var candidates := OfClass(world.objects, LegacyPlayerClass);
      if playerId in Owners(candidates) {
        OfClassSorted(world.objects, LegacyPlayerClass);
        FirstOwnedHasLeastId(candidates, playerId);
      }
    }

    /**
     * `addObjectToWorld(new Player(this, null, props))`: a player whose id
     * comes from the id counter enters the world and gets its record.
     */
    method SpawnPlayer(props: Props) returns (p: LegacyPlayer)
      requires Valid()
      modifies this`players, world`objects, world`idCount
      ensures Valid()
      ensures fresh(p) && fresh(p.obj)
      ensures players == old(players) + [p]
      ensures p.obj.cls == LegacyPlayerClass && p.obj.playerId == 0 && p.test == 2
      ensures p.obj.position == props.position && p.obj.width == props.width && p.obj.height == props.height
      ensures old(world.idCount) <= p.obj.id < world.idCount
      ensures world.objects == InsertById(old(world.objects), p.obj)
    {
      var id := world.GetNewId();
      var o := new DynamicObject(id, LegacyPlayerClass, props);
      p := new LegacyPlayer(o);
      world.AddObject(o);
      assert Objs(players + [p]) == Objs(players) + [o];
      players := players + [p];
    }

    /**
     * `server_init()`: two players enter the world, with ids from the id
     * counter, at (100, 0) sized 16 by 16 and at (10, 0) with lance's
     * default size; then a static floor with the fixed id 69 at (0, 30),
     * 1000000 wide and 100 high.
     */
    method ServerInit() returns (p1: LegacyPlayer, p2: LegacyPlayer, floor: DynamicObject)
      requires Valid()
      modifies this`players, world`objects, world`idCount
      ensures Valid()
      ensures fresh(p1) && fresh(p2) && fresh(p1.obj) && fresh(p2.obj) && fresh(floor)
      ensures players == old(players) + [p1, p2]
      ensures p1.obj.position == Vec2(100.0, 0.0) && p1.obj.width == Some(16.0) && p1.obj.height == Some(16.0)
      ensures p2.obj.position == Vec2(10.0, 0.0) && p2.obj.width == None && p2.obj.height == None
      ensures old(world.idCount) <= p1.obj.id < p2.obj.id < world.idCount
      ensures p1.obj.playerId == 0 && p2.obj.playerId == 0 && p1.test == 2 && p2.test == 2
      ensures floor.id == FloorId && floor.cls == PlainObject && floor.isStatic == 1
      ensures floor.position == Vec2(0.0, 30.0) && floor.width == Some(1000000.0) && floor.height == Some(100.0)
      ensures world.objects == InsertById(InsertById(InsertById(old(world.objects), p1.obj), p2.obj), floor)
      ensures world.QueryById(FloorId) == Some(floor)
    {
      p1 := SpawnPlayer(Props(Vec2(100.0, 0.0), Some(16.0), Some(16.0), 0));
      p2 := SpawnPlayer(At(Vec2(10.0, 0.0)));
      floor := AddFloor();
    }

    /**
     * The last step of `server_init()`: the floor enters the world under its
     * fixed id 69, which afterwards finds it.
     */
    method AddFloor() returns (floor: DynamicObject)
      requires Valid()
      modifies world`objects
      ensures Valid()
      ensures fresh(floor)
      ensures floor.id == FloorId && floor.cls == PlainObject && floor.isStatic == 1 && floor.playerId == 0
      ensures floor.position == Vec2(0.0, 30.0) && floor.width == Some(1000000.0) && floor.height == Some(100.0)
      ensures world.objects == InsertById(old(world.objects), floor)
      ensures world.QueryById(FloorId) == Some(floor)
    {
      floor := new DynamicObject(FloorId, PlainObject, Props(Vec2(0.0, 30.0), Some(1000000.0), Some(100.0), 1));
      ghost var before := world.objects;
      world.AddObject(floor);
      FindAfterInsert(before, floor, FloorId);
    }

    /**
     * `server_playerJoined(ev)`: the first object in world order that no
     * client owns, of any class, becomes `pid`'s; nothing else changes.
     */
    method ServerPlayerJoined(pid: int)
      requires Valid()
      modifies world.objects`playerId
      ensures Valid()
      ensures Owners(world.objects) == Join(old(Owners(world.objects)), pid)
    {
      var k := FirstIndex(Owners(world.objects), 0);
      if k != -1 {
        world.objects[k].playerId := pid;
        assert forall i :: 0 <= i < |world.objects| && i != k ==> world.objects[i] != world.objects[k];
      }
    }

    /**
     * `server_playerDisconnected(ev)`: the first object in world order that
     * `pid` owns is owned by nobody again; nothing else changes.
     */
    method ServerPlayerDisconnected(pid: int)
      requires Valid()
      modifies world.objects`playerId
      ensures Valid()
      ensures Owners(world.objects) == Disconnect(old(Owners(world.objects)), pid)
    {
      var k := FirstIndex(Owners(world.objects), pid);
      if k != -1 {
        world.objects[k].playerId := 0;
        assert forall i :: 0 <= i < |world.objects| && i != k ==> world.objects[i] != world.objects[k];
      }
    }

    /**
     * What the switch of `processInput` does to the player found: `left`
     * and `right` shift it by 1.3, `jump` kicks it up by 4 and arms the
     * reset timer, and `attack`, `debugCollision` and unknown inputs leave
     * it as it was.
     */
    static twostate predicate Acted(p: LegacyPlayer, action: Option<Action>)
      reads p, p.obj
    {
      var pos, vel, resets := old(p.obj.position), old(p.obj.velocity), old(p.pendingJumpResets);
      match action
      case Some(Left) =>
        p.obj.position == Vec2(pos.x - MoveSpeed, pos.y) && p.obj.velocity == vel && p.pendingJumpResets == resets
      case Some(Right) =>
        p.obj.position == Vec2(pos.x + MoveSpeed, pos.y) && p.obj.velocity == vel && p.pendingJumpResets == resets
      case Some(Jump) =>
        p.obj.position == pos && p.obj.velocity == Vec2(vel.x, vel.y - JumpImpulse) && p.pendingJumpResets == resets + 1
      case _ =>
        p.obj.position == pos && p.obj.velocity == vel && p.pendingJumpResets == resets
    }

    /**
     * The switch of `processInput` for the player found: known inputs act
     * as `Acted` says, and any other input throws.
     */
    static method Perform(p: LegacyPlayer, action: Option<Action>) returns (r: Outcome)
      modifies p.obj`position, p.obj`velocity, p`pendingJumpResets
      ensures action.Some? <==> r == Ok
      ensures r.Throw? ==> r.message == InvalidInputMessage
      ensures Acted(p, action)
    {
      r := Ok;
      match action
      case Some(Left) => p.MoveLeft();
      case Some(Right) => p.MoveRight();
      case Some(Jump) => p.Jump();
      case Some(Attack) =>
      case Some(DebugCollision) =>
      case None => r := Throw(InvalidInputMessage);
    }

    /**
     * `processInput(inputDesc, playerId)`: with no player owned by
     * `playerId` nothing happens, whatever the input; otherwise the input
     * acts on the first player in world order that `playerId` owns, as
     * `Acted` says, and on no other.
     */
    method ProcessInput(input: string, playerId: int) returns (r: Outcome)
      requires Valid()
      modifies Objs(players)`position, Objs(players)`velocity, players`pendingJumpResets
      ensures Valid()
      ensures old(OwnedPlayer(playerId)).None? ==> r == Ok
      ensures old(OwnedPlayer(playerId)).Some? ==> (r == Ok <==> ActionOf(input).Some?)
      ensures r.Throw? ==> r.message == InvalidInputMessage
      ensures old(OwnedPlayer(playerId)).Some? ==> Acted(old(OwnedPlayer(playerId)).value, ActionOf(input))
      ensures forall q :: q in players && Some(q) != old(OwnedPlayer(playerId)) ==>
                q.obj.position == old(q.obj.position) && q.obj.velocity == old(q.obj.velocity)
                && q.pendingJumpResets == old(q.pendingJumpResets)
    {
      r := Ok;
      var player := OwnedPlayer(playerId);
      if player.Some? {
        var p := player.value;
        assert forall q :: q in players && q != p ==> q.obj != p.obj;
        r := Perform(p, ActionOf(input));
        forall q | q in players && q != p
          ensures q.obj.position == old(q.obj.position) && q.obj.velocity == old(q.obj.velocity)
          ensures q.pendingJumpResets == old(q.pendingJumpResets)
        {
          assert q.obj != p.obj;
        }
      }
    }
  }
}
