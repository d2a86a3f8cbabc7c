/**
 * The prefab object pool (utils/ObjectPool.ts): one list of runtime objects
 * per prefab id, each entry flagged active (in play) or inactive (parked
 * off-world, ready for reuse).
 *
 * Entries are values here. In the source the live list and the pool share
 * one object; the only time the pool reads a live object's state is when it
 * is handed back, so `ReturnObject` writes the live state back into the
 * entry with the same id.
 */
module Pooling {
  import opened Types
  import opened RuntimeObjects
  import JsRecord
  import Text

  type Pools = map<Id, seq<RuntimeObject>>

  /** The factory the pool is given (`createFn`); the second argument is the
      fresh id the factory's `uuidv4()` call returns. */
  type CreateFn = (GameObject, Id) -> RuntimeObject

  /** The coordinate parked entries are moved to. */
  const OffWorld: real := -99999.0

  function PoolOf(pools: Pools, prefabId: Id): seq<RuntimeObject> {
    if prefabId in pools then pools[prefabId] else []
  }

  /** Every inactive entry is parked off-world. */
  ghost predicate ParkedOffWorld(pools: Pools) {
    forall pid, k :: pid in pools && 0 <= k < |pools[pid]| && !pools[pid][k].active ==>
      pools[pid][k].x == OffWorld
  }

  /** No pool lost an entry. */
  ghost predicate NoShrink(before: Pools, after: Pools) {
    forall pid :: pid in before ==> pid in after && |before[pid]| <= |after[pid]|
  }

  // ---------------------------------------------------------------- preAllocate

  /** `count - pool.length` iterations of the loop, none when negative. */
  function Needed(size: nat, count: int): nat {
    if count > size then count - size else 0
  }

  /** The entries `preAllocate` pushes: made by the factory, inactive, off-world. */
  function ParkedNew(prefab: GameObject, createFn: CreateFn, from: nat, n: nat): (s: seq<RuntimeObject>)
    ensures |s| == n
    ensures forall k :: 0 <= k < n ==> s[k] == createFn(prefab, Fresh(from + k)).(active := false, x := OffWorld)
  {
    seq(n, k requires 0 <= k < n => createFn(prefab, Fresh(from + k)).(active := false, x := OffWorld))
  }

  datatype Allocation = Allocation(pools: Pools, nextId: nat)

  /** The state after `preAllocate(prefab, count, createFn)`. */
  function PreAllocated(pools: Pools, prefab: GameObject, count: int, createFn: CreateFn, nextId: nat): Allocation {
    var pool := PoolOf(pools, prefab.id);
    var n := Needed(|pool|, count);
    Allocation(pools[prefab.id := pool + ParkedNew(prefab, createFn, nextId, n)], nextId + n)
  }

  /** `preAllocate` leaves max(old size, count) entries: the old ones in place,
      then new inactive off-world entries; other pools are untouched. */
  lemma PreAllocateSpec(pools: Pools, prefab: GameObject, count: int, createFn: CreateFn, nextId: nat)
    ensures var a := PreAllocated(pools, prefab, count, createFn, nextId);
      var before := PoolOf(pools, prefab.id);
      var after := a.pools[prefab.id];
      && |after| == (if count > |before| then count else |before|)
      && after[..|before|] == before
      && (forall k :: |before| <= k < |after| ==> !after[k].active && after[k].x == OffWorld)
      && (forall pid :: pid != prefab.id ==> PoolOf(a.pools, pid) == PoolOf(pools, pid))
      && a.nextId == nextId + (|after| - |before|)
  {
  }

  // ---------------------------------------------------------------- get

  /** `pool.find(o => !o.active)`, as an index (|pool| when there is none). */
  function FirstInactive(pool: seq<RuntimeObject>): (i: nat)
    ensures i <= |pool|
    ensures i < |pool| ==> !pool[i].active
    ensures forall j :: 0 <= j < i ==> pool[j].active
  {
    if pool == [] then 0 else if !pool[0].active then 0 else 1 + FirstInactive(pool[1..])
  }

  /** `resetObject(obj, prefab)` with the fresh id `id`. Unlike
      `createRuntimeObjectFromPrefab`, it reads `maxHp` from the exact key "hp". */
  function ResetObject(obj: RuntimeObject, prefab: GameObject, id: Id): RuntimeObject {
    var hp := JsRecord.Get(prefab.variables, "hp");
    obj.(vx := 0.0, vy := 0.0, isGrounded := false, invincibleTimer := 0.0,
         animTimer := 0.0, animFrameIndex := 0, currentAnimation := prefab.currentAnimation,
         autoVx := PatrolSpeedX(prefab.autoMove), autoVy := PatrolSpeedY(prefab.autoMove),
         variables := prefab.variables,
         maxHp := if hp.Num? then hp.n else DefaultMaxHp,
         id := id)
  }

  datatype Acquisition = Acquisition(pools: Pools, obj: RuntimeObject, nextId: nat)

  /** The state and result of `get(prefab, createFn)`. */
  function Acquired(pools: Pools, prefab: GameObject, createFn: CreateFn, nextId: nat): Acquisition {
    var pool := PoolOf(pools, prefab.id);
    var i := FirstInactive(pool);
    if i < |pool| then
      var obj := ResetObject(pool[i], prefab, Fresh(nextId)).(active := true);
      Acquisition(pools[prefab.id := pool[i := obj]], obj, nextId + 1)
    else
      var obj := createFn(prefab, Fresh(nextId)).(active := true);
      Acquisition(pools[prefab.id := pool + [obj]], obj, nextId + 1)
  }

  /** With an inactive entry available, `get` hands out the first one, reset,
      active and with a new id, and the pool keeps its size. */
  lemma GetReusesFirstInactive(pools: Pools, prefab: GameObject, createFn: CreateFn, nextId: nat, i: nat)
    requires var pool := PoolOf(pools, prefab.id);
      i < |pool| && !pool[i].active && forall j :: 0 <= j < i ==> pool[j].active
    ensures var pool := PoolOf(pools, prefab.id);
      var a := Acquired(pools, prefab, createFn, nextId);
      && a.obj == ResetObject(pool[i], prefab, Fresh(nextId)).(active := true)
      && a.obj.active && a.obj.id == Fresh(nextId)
      && a.obj.vx == 0.0 && a.obj.vy == 0.0 && a.obj.variables == prefab.variables
      && |a.pools[prefab.id]| == |pool|
      && a.pools[prefab.id][i] == a.obj
      && (forall j :: 0 <= j < |pool| && j != i ==> a.pools[prefab.id][j] == pool[j])
      && a.nextId == nextId + 1
  {
    var pool := PoolOf(pools, prefab.id);
  }

  /** With every entry active, `get` appends exactly one new active object. */
  lemma GetGrowsByOne(pools: Pools, prefab: GameObject, createFn: CreateFn, nextId: nat)
    requires forall j :: 0 <= j < |PoolOf(pools, prefab.id)| ==> PoolOf(pools, prefab.id)[j].active
    ensures var pool := PoolOf(pools, prefab.id);
      var a := Acquired(pools, prefab, createFn, nextId);
      && a.obj == createFn(prefab, Fresh(nextId)).(active := true)
      && a.pools[prefab.id] == pool + [a.obj]
      && |a.pools[prefab.id]| == |pool| + 1
      && a.nextId == nextId + 1
  {
  }

  /** A reused entry starts like a freshly created one: at rest, with the
      prefab's variables, patrol speeds, animation and a fresh id; it keeps
      its position, patrol anchor, rotation and `lastSpawnTime`. */
  lemma ResetMatchesCreate(obj: RuntimeObject, prefab: GameObject, id: Id)
    ensures var r := ResetObject(obj, prefab, id);
      var c := CreateRuntimeObjectFromPrefab(prefab, id);
      && r.id == c.id && r.vx == c.vx && r.vy == c.vy && r.isGrounded == c.isGrounded
      && r.invincibleTimer == c.invincibleTimer && r.animTimer == c.animTimer
      && r.animFrameIndex == c.animFrameIndex && r.currentAnimation == c.currentAnimation
      && r.autoVx == c.autoVx && r.autoVy == c.autoVy && r.variables == c.variables
      && r.x == obj.x && r.y == obj.y && r.startX == obj.startX && r.startY == obj.startY
      && r.rotation == obj.rotation && r.lastSpawnTime == obj.lastSpawnTime
  {
  }

  /** Both read `maxHp` from the same variable when the prefab's first
      hp-like variable is spelt exactly "hp". */
  lemma ResetMaxHpAgreesOnLowerCaseKey(obj: RuntimeObject, prefab: GameObject, id: Id)
    requires HpIndex(prefab.variables) < |prefab.variables|
    requires prefab.variables[HpIndex(prefab.variables)].0 == "hp"
    ensures ResetObject(obj, prefab, id).maxHp == CreateRuntimeObjectFromPrefab(prefab, id).maxHp
  {
    var vars := prefab.variables;
    var i := HpIndex(vars);
    Text.HpNames("hp");
    assert forall j :: 0 <= j < i ==> vars[j].0 != "hp";
    assert JsRecord.Get(vars, "hp") == vars[i].1;
  }

  /** The asymmetry above is real: a prefab whose only hit-point variable is
      "HP" = 50 creates objects with `maxHp` 50, but a reused entry gets 100. */
  lemma ResetIgnoresUpperCaseHp(obj: RuntimeObject, prefab: GameObject, id: Id)
    requires prefab.variables == [("HP", Num(50.0))]
    ensures CreateRuntimeObjectFromPrefab(prefab, id).maxHp == 50.0
    ensures ResetObject(obj, prefab, id).maxHp == DefaultMaxHp
  {
    Text.HpNames("HP");
    assert HpIndex(prefab.variables) == 0;
    assert !JsRecord.HasKey(prefab.variables, "hp");
  }

  // ---------------------------------------------------------------- returnObject

  /** The position of the entry with id `id`, or |pool|. */
  function IndexOfId(pool: seq<RuntimeObject>, id: Id): (i: nat)
    ensures i <= |pool|
    ensures i < |pool| ==> pool[i].id == id
    ensures forall j :: 0 <= j < i ==> pool[j].id != id
  {
    if pool == [] then 0 else if pool[0].id == id then 0 else 1 + IndexOfId(pool[1..], id)
  }

  /** What `returnObject` does to the object it is handed. */
  function Parked(obj: RuntimeObject): RuntimeObject {
    obj.(active := false, x := OffWorld, y := OffWorld, vx := 0.0, vy := 0.0)
  }

  /** The pools after `returnObject(obj)`: the entry shared with `obj` now holds
      `obj`'s state, parked. An object without a prefab origin, or one no pool
      holds, leaves the pools unchanged. */
  function Returned(pools: Pools, obj: RuntimeObject): Pools {
    var pid := obj.originalPrefabId;
    if !HasId(pid) || pid !in pools then pools
    else
      var i := IndexOfId(pools[pid], obj.id);
      if i < |pools[pid]| then pools[pid := pools[pid][i := Parked(obj)]] else pools
  }

  lemma ReturnObjectSpec(pools: Pools, obj: RuntimeObject)
    ensures !HasId(obj.originalPrefabId) ==> Returned(pools, obj) == pools
    ensures var pid := obj.originalPrefabId; var r := Returned(pools, obj);
      HasId(pid) && pid in pools && IndexOfId(pools[pid], obj.id) < |pools[pid]| ==>
        var i := IndexOfId(pools[pid], obj.id);
        && r[pid][i].id == obj.id && !r[pid][i].active
        && r[pid][i].x == OffWorld && r[pid][i].y == OffWorld
        && r[pid][i].vx == 0.0 && r[pid][i].vy == 0.0
        && |r[pid]| == |pools[pid]|
        && (forall j :: 0 <= j < |pools[pid]| && j != i ==> r[pid][j] == pools[pid][j])
    ensures Returned(pools, obj).Keys == pools.Keys
  {
  }

  // ---------------------------------------------------------------- invariants
  // Only `clear` removes entries: every other operation keeps each pool's
  // size or grows it, and keeps every inactive entry parked off-world.

  lemma PreAllocateKeepsInvariants(pools: Pools, prefab: GameObject, count: int, createFn: CreateFn, nextId: nat)
    ensures var p := PreAllocated(pools, prefab, count, createFn, nextId).pools;
      NoShrink(pools, p) && (ParkedOffWorld(pools) ==> ParkedOffWorld(p))
  {
    var pool := PoolOf(pools, prefab.id);
    var p: Pools := PreAllocated(pools, prefab, count, createFn, nextId).pools;
    if ParkedOffWorld(pools) {
      forall pid, k | pid in p && 0 <= k < |p[pid]| && !p[pid][k].active
        ensures p[pid][k].x == OffWorld
      {
        if pid == prefab.id && k >= |pool| {
          assert p[pid][k] == ParkedNew(prefab, createFn, nextId, Needed(|pool|, count))[k - |pool|];
        } else if pid == prefab.id {
          assert p[pid][k] == pool[k];
        }
      }
    }
  }

  lemma GetKeepsInvariants(pools: Pools, prefab: GameObject, createFn: CreateFn, nextId: nat)
    ensures var p := Acquired(pools, prefab, createFn, nextId).pools;
      NoShrink(pools, p) && (ParkedOffWorld(pools) ==> ParkedOffWorld(p))
  {
    var pool := PoolOf(pools, prefab.id);
    var p: Pools := Acquired(pools, prefab, createFn, nextId).pools;
    if ParkedOffWorld(pools) {
      forall pid, k | pid in p && 0 <= k < |p[pid]| && !p[pid][k].active
        ensures p[pid][k].x == OffWorld
      {
        if pid == prefab.id {
          assert k < |pool| && p[pid][k] == pool[k];
        }
      }
    }
  }

  lemma ReturnKeepsInvariants(pools: Pools, obj: RuntimeObject)
    ensures var p := Returned(pools, obj);
      NoShrink(pools, p) && (ParkedOffWorld(pools) ==> ParkedOffWorld(p))
  {
  }

  /** `clear` empties every pool. */
  lemma ClearEmpties()
    ensures var p: Pools := map[]; forall pid :: PoolOf(p, pid) == []
  {
  }

  // ---------------------------------------------------------------- the pool object

  class ObjectPool {
    var pools: Pools

    constructor ()
      ensures pools == map[]
    {
      pools := map[];
    }

    /** `clear()`. */
    method Clear()
      modifies this
      ensures pools == map[]
    {
      pools := map[];
    }

    /** `preAllocate(prefab, count, createFn)`; the factory consumes ids from
        `nextId` on, and `nextId'` is the first one left unused. */
    method PreAllocate(prefab: GameObject, count: int, createFn: CreateFn, nextId: nat) returns (nextId': nat)
      modifies this
      ensures Allocation(pools, nextId') == PreAllocated(old(pools), prefab, count, createFn, nextId)
      ensures ParkedOffWorld(old(pools)) ==> ParkedOffWorld(pools)
    {
      if prefab.id !in pools {
        pools := pools[prefab.id := []];
      }
      var pool := pools[prefab.id];
      ghost var start := pool;
      assert start == PoolOf(old(pools), prefab.id);
      var needed := count - |pool|;
      var i := 0;
      nextId' := nextId;
      while i < needed
        invariant 0 <= i <= Needed(|start|, count)
        invariant nextId' == nextId + i
        invariant pool == start + ParkedNew(prefab, createFn, nextId, i)
        invariant pools == old(pools)[prefab.id := pool]
      {
        var obj := createFn(prefab, Fresh(nextId'));
        nextId' := nextId' + 1;
        obj := obj.(active := false, x := OffWorld);
        assert ParkedNew(prefab, createFn, nextId, i + 1) == ParkedNew(prefab, createFn, nextId, i) + [obj];
        pool := pool + [obj];
        pools := pools[prefab.id := pool];
        i := i + 1;
      }
      PreAllocateKeepsInvariants(old(pools), prefab, count, createFn, nextId);
    }

    /** `get(prefab, createFn)`: the object handed out, and the next unused id. */
    method Get(prefab: GameObject, createFn: CreateFn, nextId: nat) returns (obj: RuntimeObject, nextId': nat)
      modifies this
      ensures Acquisition(pools, obj, nextId') == Acquired(old(pools), prefab, createFn, nextId)
      ensures ParkedOffWorld(old(pools)) ==> ParkedOffWorld(pools)
    {
      if prefab.id !in pools {
        pools := pools[prefab.id := []];
      }
      var pool := pools[prefab.id];
      var i := 0;
      while i < |pool| && pool[i].active
        invariant 0 <= i <= |pool|
        invariant forall j :: 0 <= j < i ==> pool[j].active
      {
        i := i + 1;
      }
      assert i == FirstInactive(pool);
      if i < |pool| {
        obj := ResetObject(pool[i], prefab, Fresh(nextId)).(active := true);
        pools := pools[prefab.id := pool[i := obj]];
      } else {
        obj := createFn(prefab, Fresh(nextId)).(active := true);
        pools := pools[prefab.id := pool + [obj]];
      }
      nextId' := nextId + 1;
      GetKeepsInvariants(old(pools), prefab, createFn, nextId);
    }

    /** `returnObject(obj)`. */
    method ReturnObject(obj: RuntimeObject)
      modifies this
      ensures pools == Returned(old(pools), obj)
      ensures ParkedOffWorld(old(pools)) ==> ParkedOffWorld(pools)
    {
      var pid := obj.originalPrefabId;
      if HasId(pid) && pid in pools {
        var pool := pools[pid];
        var i := 0;
        while i < |pool| && pool[i].id != obj.id
          invariant 0 <= i <= |pool|
          invariant forall j :: 0 <= j < i ==> pool[j].id != obj.id
        {
          i := i + 1;
        }
        assert i == IndexOfId(pool, obj.id);
        if i < |pool| {
          pools := pools[pid := pool[i := Parked(obj)]];
        }
      }
      ReturnKeepsInvariants(old(pools), obj);
    }
  }
}
