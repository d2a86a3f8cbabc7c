/**
 * Live objects of play mode: the `RuntimeObject` record (utils/ObjectPool.ts)
 * and how one is made from an authored template and tested for overlap
 * (components/GameRuntime.tsx).
 */
module RuntimeObjects {
  import opened Wrappers
  import opened Types
  import opened Text

  /** A live copy of a template plus the simulation state. `originalPrefabId`
      is `NoId` when the source leaves it undefined. */
  datatype RuntimeObject = RuntimeObject(
    id: Id,
    name: string,
    otype: ObjectType,
    x: real, y: real, width: real, height: real,
    rotation: real,
    isPrefab: bool,
    poolSize: int,
    spawnCooldown: real,
    variables: Vars,
    animations: seq<Animation>,
    currentAnimation: Option<string>,
    hasCollision: bool,
    hasGravity: bool,
    autoMove: Option<AutoMove>,
    vx: real, vy: real,
    isGrounded: bool,
    animTimer: real,
    animFrameIndex: int,
    startX: real, startY: real,
    autoVx: real, autoVy: real,
    invincibleTimer: real,
    maxHp: real,
    originalPrefabId: Id,
    lastSpawnTime: real,
    active: bool)

  /** The hit points an object starts with when it has no numeric "hp". */
  const DefaultMaxHp: real := 100.0

  /** `autoMove?.speedX || 0` and `autoMove?.speedY || 0`. */
  function PatrolSpeedX(a: Option<AutoMove>): real { if a.Some? then a.value.speedX else 0.0 }
  function PatrolSpeedY(a: Option<AutoMove>): real { if a.Some? then a.value.speedY else 0.0 }

  /** The position of the first variable whose name lowercases to "hp"
      (`Object.keys(vars).find(k => k.toLowerCase() === 'hp')`), or |vars|. */
  function HpIndex(vars: Vars): (i: nat)
    ensures i <= |vars|
    ensures i < |vars| ==> IsHpName(vars[i].0)
    ensures forall j :: 0 <= j < i ==> !IsHpName(vars[j].0)
  {
    if vars == [] then 0
    else if IsHpName(vars[0].0) then 0
    else 1 + HpIndex(vars[1..])
  }

  /** The `maxHp` of a new object: the value of that variable when it is a
      number, else 100. */
  function MaxHpOf(vars: Vars): (m: real)
    ensures (forall i :: 0 <= i < |vars| ==> !IsHpName(vars[i].0)) ==> m == DefaultMaxHp
    ensures forall i :: 0 <= i < |vars| && IsHpName(vars[i].0)
                        && (forall j :: 0 <= j < i ==> !IsHpName(vars[j].0)) ==>
              m == (if vars[i].1.Num? then vars[i].1.n else DefaultMaxHp)
  {
    var i := HpIndex(vars);
    if i < |vars| && vars[i].1.Num? then vars[i].1.n else DefaultMaxHp
  }

  /** The template fields a runtime object carries (the `...prefab` spread). */
  function TemplateOf(o: RuntimeObject): GameObject {
    GameObject(o.id, o.name, o.otype, o.x, o.y, o.width, o.height, o.rotation, o.isPrefab,
               o.poolSize, o.spawnCooldown, o.variables, o.animations, o.currentAnimation,
               o.hasCollision, o.hasGravity, o.autoMove)
  }

  /** `createRuntimeObjectFromPrefab(prefab)`, with `id` the fresh id that `uuidv4()` returns. */
  function CreateRuntimeObjectFromPrefab(prefab: GameObject, id: Id): (r: RuntimeObject)
    // the template's fields are copied, except the id and the prefab flag
    ensures TemplateOf(r) == prefab.(id := id, isPrefab := false)
    // motion, timers and animation start from rest; the patrol anchor is the template position
    ensures r.vx == 0.0 && r.vy == 0.0 && !r.isGrounded && r.invincibleTimer == 0.0
    ensures r.animTimer == 0.0 && r.animFrameIndex == 0 && r.lastSpawnTime == 0.0 && r.active
    ensures r.startX == prefab.x && r.startY == prefab.y
    ensures r.autoVx == PatrolSpeedX(prefab.autoMove) && r.autoVy == PatrolSpeedY(prefab.autoMove)
    // only a prefab template leaves a back-reference for the pool
    ensures prefab.isPrefab ==> r.originalPrefabId == prefab.id
    ensures !prefab.isPrefab ==> r.originalPrefabId == NoId
    ensures r.maxHp == MaxHpOf(prefab.variables)
  {
    RuntimeObject(
      id, prefab.name, prefab.otype,
      prefab.x, prefab.y, prefab.width, prefab.height, prefab.rotation,
      false, prefab.poolSize, prefab.spawnCooldown,
      prefab.variables, prefab.animations, prefab.currentAnimation,
      prefab.hasCollision, prefab.hasGravity, prefab.autoMove,
      0.0, 0.0, false, 0.0, 0,
      prefab.x, prefab.y,
      PatrolSpeedX(prefab.autoMove), PatrolSpeedY(prefab.autoMove),
      0.0, MaxHpOf(prefab.variables),
      if prefab.isPrefab then prefab.id else NoId,
      0.0, true)
  }

  /** `checkIntersection(r1, r2)`: closed rectangles, so touching edges intersect. */
  predicate CheckIntersection(r1: RuntimeObject, r2: RuntimeObject) {
    !(r2.x > r1.x + r1.width ||
      r2.x + r2.width < r1.x ||
      r2.y > r1.y + r1.height ||
      r2.y + r2.height < r1.y)
  }

  /** The overlap test is the product of two closed interval overlaps, so it is symmetric. */
  lemma IntersectionIsIntervalOverlap(r1: RuntimeObject, r2: RuntimeObject)
    ensures CheckIntersection(r1, r2) <==>
      (r1.x <= r2.x + r2.width && r2.x <= r1.x + r1.width &&
       r1.y <= r2.y + r2.height && r2.y <= r1.y + r1.height)
    ensures CheckIntersection(r1, r2) <==> CheckIntersection(r2, r1)
  {
  }
}
