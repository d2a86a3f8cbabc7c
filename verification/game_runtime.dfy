/**
 * The running game of play mode (components/GameRuntime.tsx): the state the
 * component keeps between frames, scene loading and
 * the frame tick. Each phase of the tick is a loop over the live objects
 * (or the rules), proved to compute the corresponding fold of module Tick.
 */
module Play {
  import opened Wrappers
  import opened Types
  import opened Text
  import opened RuntimeObjects
  import opened Rules
  import opened Physics
  import opened Animations
  import opened Pooling
  import opened Tick
  import opened SceneLoading
  import opened TickProperties

  // ---------------------------------------------------------------- phases of the tick

  /** Lines 307-323: step every object's timers and record where it started. */
  method StepAllTimers(objs: seq<RuntimeObject>, simDt: real, effect: real) returns (r: TimersResult)
    ensures r == Timers(objs, simDt, effect, |objs|)
  {
    var cur := objs;
    var recycle: set<Id> := {};
    var starts: map<Id, (real, real)> := map[];
    var i := 0;
    while i < |objs|
      invariant 0 <= i <= |objs|
      invariant TimersResult(cur, recycle, starts) == Timers(objs, simDt, effect, i)
    {
      var o := objs[i];
      starts := starts[o.id := (o.x, o.y)];
      var t := StepTimers(o, simDt, effect);
      cur := cur[i := t.obj];
      if t.expired {
        recycle := recycle + {o.id};
      }
      i := i + 1;
    }
    r := TimersResult(cur, recycle, starts);
  }

  /** Lines 398-426 for the object at index `i`: a source of the target
      type spawns one object of the prefab, taken from the pool, if its
      spawn cooldown allows. */
  method SpawnStep(pool: ObjectPool, w: World, a: Action, c: Ctx, i: nat) returns (r: World)
    requires i < |w.objs| && w.pools == pool.pools
    modifies pool
    ensures r == SpawnOne(w, a, c, i) && pool.pools == r.pools
  {
    r := w;
    var src := w.objs[i];
    if TypeIs(src, OrDefault(a.target, "Player")) {
      var g := SpawnGate(src, c.spawnSec);
      if g.allowed {
        r := r.(objs := r.objs[i := g.source]);
        if a.prefabId in c.prefabs {
          var prefab := c.prefabs[a.prefabId];
          var obj, next := pool.Get(prefab, CreateRuntimeObjectFromPrefab, r.nextId);
          var (x, y) := SpawnPoint(g.source, a);
          r := r.(pools := pool.pools, nextId := next,
                  spawns := r.spawns + [Place(obj, prefab, x, y, g.source, c.view, c.trig)]);
        }
      }
    }
  }

  /** Lines 398-426: every source of the target type spawns. */
  method SpawnAll(pool: ObjectPool, w: World, a: Action, c: Ctx) returns (r: World)
    requires w.pools == pool.pools
    modifies pool
    ensures r == SpawnFrom(w, a, c, |w.objs|) && pool.pools == r.pools
  {
    r := w;
    var i := 0;
    while i < |w.objs|
      invariant 0 <= i <= |w.objs|
      invariant r == SpawnFrom(w, a, c, i) && pool.pools == r.pools
    {
      assert SpawnFrom(w, a, c, i + 1) == SpawnOne(r, a, c, i);
      r := SpawnStep(pool, r, a, c, i);
      i := i + 1;
    }
  }

  /** Lines 428-480 for the object at index `i`: the rule's action, if
      the object is one of its targets. */
  method TargetStep(w: World, e: GameEvent, c: Ctx, i: nat) returns (r: World)
    requires i < |w.objs|
    ensures r == TargetOne(w, e, c, i)
  {
    r := w;
    var o := w.objs[i];
    if IsRuleTarget(e, o) {
      var res := ApplyAction(o, e.action, c.scale.physics);
      r := w.(objs := w.objs[i := res.obj],
              recycle := if res.destroyed then w.recycle + {o.id} else w.recycle,
              hitStop := if res.hitStop then HitStopOnHit else w.hitStop);
    }
  }

  /** Lines 428-480: the rule's action on every object it targets. */
  method ApplyToTargets(w: World, e: GameEvent, c: Ctx) returns (r: World)
    ensures r == TargetAll(w, e, c, |w.objs|)
  {
    r := w;
    var i := 0;
    while i < |w.objs|
      invariant 0 <= i <= |w.objs|
      invariant r == TargetAll(w, e, c, i)
    {
      r := TargetStep(r, e, c, i);
      i := i + 1;
    }
  }

  /** Lines 326-483 for one rule. */
  method RunOneRule(pool: ObjectPool, w: World, e: GameEvent, c: Ctx) returns (r: World)
    requires w.pools == pool.pools
    modifies pool
    ensures r == RunRule(w, e, c) && pool.pools == r.pools
  {
    if !Fires(w, e, c) {
      return w;
    }
    var w1 := Fire(w, e, c);
    if c.scale.effect <= 0.0 {
      return w1;
    }
    var w2 := w1;
    if e.action.atype == CREATE_OBJECT && HasId(e.action.prefabId) {
      w2 := SpawnAll(pool, w1, e.action, c);
    }
    r := ApplyToTargets(w2, e, c);
  }

  /** Lines 326-484: every rule, in order. */
  method RunAllRules(pool: ObjectPool, w: World, events: seq<GameEvent>, c: Ctx) returns (r: World)
    requires w.pools == pool.pools
    modifies pool
    ensures r == RunRules(w, events, c, |events|) && pool.pools == r.pools
  {
    r := w;
    var n := 0;
    while n < |events|
      invariant 0 <= n <= |events|
      invariant r == RunRules(w, events, c, n) && pool.pools == r.pools
    {
      assert RunRules(w, events, c, n + 1) == RunRule(RunRules(w, events, c, n), events[n], c);
      r := RunOneRule(pool, r, events[n], c);
      n := n + 1;
    }
  }

  /** Lines 494-503: players face the way they moved this tick. */
  method RotatePlayers(objs: seq<RuntimeObject>, starts: map<Id, (real, real)>, heading: Heading)
    returns (r: seq<RuntimeObject>)
    ensures r == RotateAll(objs, starts, heading, |objs|)
  {
    r := objs;
    var i := 0;
    while i < |objs|
      invariant 0 <= i <= |objs|
      invariant r == RotateAll(objs, starts, heading, i)
    {
      r := r[i := Rotated(objs[i], starts, heading)];
      i := i + 1;
    }
  }

  /** Lines 547-560: push a moving solid out of each solid in turn. */
  method ResolveAgainst(o: RuntimeObject, solids: seq<RuntimeObject>) returns (r: RuntimeObject)
    ensures r == ResolveAll(o, solids)
  {
    r := o;
    var i := 0;
    while i < |solids|
      invariant 0 <= i <= |solids|
      invariant r == ResolveAll(o, solids[..i])
    {
      assert solids[..i + 1][..i] == solids[..i];
      r := Resolve(r, solids[i]);
      i := i + 1;
    }
    assert solids[..|solids|] == solids;
  }

  /** Lines 506-562: move every object not marked for recycling, then
      resolve the solid ones against the solids as they stand. */
  method MoveAll(objs: seq<RuntimeObject>, recycle: set<Id>, physics: real) returns (r: seq<RuntimeObject>)
    ensures r == PhysicsAll(objs, recycle, physics, |objs|)
  {
    r := objs;
    var i := 0;
    while i < |objs|
      invariant 0 <= i <= |objs|
      invariant r == PhysicsAll(objs, recycle, physics, i)
    {
      var m := r[i];
      if m.id !in recycle {
        m := MoveBody(m, physics);
        if m.hasCollision {
          m := ResolveAgainst(m, Solids(r, recycle));
        }
      }
      assert m == PhysicsStep(r, i, recycle, physics);
      assert PhysicsAll(objs, recycle, physics, i + 1) == r[i := m];
      r := r[i := m];
      i := i + 1;
    }
  }

  /** Lines 573-608 for one subject: the subject at `i` against every object. */
  method PairsFrom(w: World, e: GameEvent, i: nat) returns (r: World)
    requires i < |w.objs|
    ensures r == PairsWith(w, e, i, |w.objs|)
  {
    r := w;
    var j := 0;
    while j < |w.objs|
      invariant 0 <= j <= |w.objs|
      invariant r == PairsWith(w, e, i, j)
    {
      assert PairsWith(w, e, i, j + 1) == Pair(r, e, i, j);
      r := Pair(r, e, i, j);
      j := j + 1;
    }
  }

  /** Lines 573-608 for one collision rule: every subject in turn. */
  method AllSubjects(w: World, e: GameEvent) returns (r: World)
    ensures r == Subjects(w, e, |w.objs|)
  {
    r := w;
    var i := 0;
    while i < |w.objs|
      invariant 0 <= i <= |w.objs|
      invariant r == Subjects(w, e, i)
    {
      r := PairsFrom(r, e, i);
      i := i + 1;
    }
  }

  /** Lines 564-612: every collision rule over every (subject, target) pair. */
  method CollideRules(w: World, events: seq<GameEvent>) returns (r: World)
    ensures r == CollideAll(w, events, |events|)
  {
    r := w;
    var n := 0;
    while n < |events|
      invariant 0 <= n <= |events|
      invariant r == CollideAll(w, events, n)
    {
      ghost var before := r;
      if events[n].condition.ctype == COLLISION {
        r := AllSubjects(r, events[n]);
      }
      assert r == CollideRule(before, events[n]);
      assert CollideAll(w, events, n + 1) == CollideRule(before, events[n]);
      n := n + 1;
    }
  }

  /** Lines 620-645: step the animation of every object not marked for recycling. */
  method AnimateLive(objs: seq<RuntimeObject>, recycle: set<Id>, dtMs: real, effect: real) returns (r: seq<RuntimeObject>)
    ensures r == AnimateAll(objs, recycle, dtMs, effect, |objs|)
  {
    r := objs;
    var i := 0;
    while i < |objs|
      invariant 0 <= i <= |objs|
      invariant r == AnimateAll(objs, recycle, dtMs, effect, i)
    {
      var o := objs[i];
      if o.id !in recycle {
        r := r[i := StepAnimation(o, dtMs, effect)];
      } else {
        r := r[i := o];
      }
      i := i + 1;
    }
  }

  /** Lines 648-656: drop the recycled objects (handing pooled ones back) and append the spawns. */
  method Reap(pool: ObjectPool, objs: seq<RuntimeObject>, recycle: set<Id>, spawns: seq<RuntimeObject>)
    returns (r: seq<RuntimeObject>)
    modifies pool
    ensures r == Survivors(objs, recycle) + spawns
    ensures pool.pools == ReturnAll(old(pool.pools), objs, recycle, |objs|)
  {
    var kept: seq<RuntimeObject> := [];
    var i := 0;
    while i < |objs|
      invariant 0 <= i <= |objs|
      invariant kept == Survivors(objs[..i], recycle)
      invariant pool.pools == ReturnAll(old(pool.pools), objs, recycle, i)
    {
      var o := objs[i];
      assert objs[..i + 1][..i] == objs[..i];
      if o.id in recycle {
        if HasId(o.originalPrefabId) {
          pool.ReturnObject(o);
        }
      } else {
        kept := kept + [o];
      }
      i := i + 1;
    }
    assert objs[..|objs|] == objs;
    r := kept + spawns;
  }

  /** `vs.forEach(v => m[v.id] = v.initialValue)` (lines 104-109, 228). */
  method OverlayVars(m: NumVars, vs: seq<Variable>) returns (r: NumVars)
    ensures r == Overlay(m, vs)
  {
    r := m;
    var i := 0;
    while i < |vs|
      invariant 0 <= i <= |vs|
      invariant r == Overlay(m, vs[..i])
    {
      assert vs[..i + 1][..i] == vs[..i];
      r := r[vs[i].id := vs[i].initialValue];
      i := i + 1;
    }
    assert vs[..|vs|] == vs;
  }

  /** Lines 103-109: the variables a scene starts with. */
  method StartingVars(prior: NumVars, globals: seq<Variable>, s: Scene, keepGlobals: bool) returns (r: NumVars)
    ensures r == SceneVars(prior, globals, s, keepGlobals)
  {
    var base := prior;
    if !keepGlobals {
      base := OverlayVars(map[], globals);
    }
    r := OverlayVars(base, s.variables);
  }

  /** Lines 120-131: register the prefabs (filling the pools of those that
      ask for one) and create the other templates as live objects. */
  method LoadTemplates(pool: ObjectPool, objs: seq<GameObject>, nextId: nat) returns (l: Loaded)
    requires ParkedOffWorld(pool.pools)
    modifies pool
    ensures l == LoadObjects(objs, |objs|, Loaded([], map[], old(pool.pools), nextId)) && pool.pools == l.pools
    ensures ParkedOffWorld(pool.pools)
  {
    var instances: seq<RuntimeObject> := [];
    var registry: map<Id, GameObject> := map[];
    var next := nextId;
    var i := 0;
    while i < |objs|
      invariant 0 <= i <= |objs|
      invariant Loaded(instances, registry, pool.pools, next) == LoadObjects(objs, i, Loaded([], map[], old(pool.pools), nextId))
      invariant ParkedOffWorld(pool.pools)
    {
      var o := objs[i];
      if o.isPrefab {
        registry := registry[o.id := o];
        if o.poolSize > 0 {
          next := pool.PreAllocate(o, o.poolSize, CreateRuntimeObjectFromPrefab, next);
        }
      } else {
        instances := instances + [CreateRuntimeObjectFromPrefab(o, Fresh(next))];
        next := next + 1;
      }
      i := i + 1;
    }
    l := Loaded(instances, registry, pool.pools, next);
  }

  /** What scene loading builds from a scene's templates, starting from an empty registry and emptied pools. */
  function LoadedScene(s: Scene, nextId: nat): Loaded {
    LoadObjects(s.objects, |s.objects|, Loaded([], map[], map[], nextId))
  }

  /** Line 56: the view of the scene play starts in, `SIDE` when it has none. */
  function ViewOf(scenes: seq<Scene>, id: Id): (v: ViewType)
    ensures FindScene(scenes, id).None? ==> v == SIDE
  {
    match FindScene(scenes, id)
    case None => SIDE
    case Some(s) => s.view.GetOr(SIDE)
  }

  // ---------------------------------------------------------------- the component

  /** Lines 298-484: the timers, then every rule. Also returns where each
      object started, which the top-down rotation reads. */
  method RulesPhase(pool: ObjectPool, w: World, events: seq<GameEvent>, c: Ctx)
    returns (r: World, starts: map<Id, (real, real)>)
    requires w.pools == pool.pools
    modifies pool
    ensures r == AfterRules(w, events, c) && pool.pools == r.pools
    ensures starts == Timers(w.objs, c.scale.simDt, c.scale.effect, |w.objs|).starts
  {
    var t := StepAllTimers(w.objs, c.scale.simDt, c.scale.effect);
    r := RunAllRules(pool, w.(objs := t.objs, recycle := t.recycle), events, c);
    starts := t.starts;
  }

  /** Lines 494-612: rotation in the top-down view, then physics and the
      collision rules unless frozen. */
  method CollisionsPhase(w: World, starts: map<Id, (real, real)>, events: seq<GameEvent>, c: Ctx) returns (r: World)
    ensures r == AfterCollisions(w, starts, events, c)
  {
    var objs := w.objs;
    if c.view == TOP_DOWN {
      objs := RotatePlayers(objs, starts, c.heading);
    }
    if c.scale.effect > 0.0 {
      objs := MoveAll(objs, w.recycle, c.scale.physics);
    }
    r := w.(objs := objs);
    if c.scale.effect > 0.0 {
      r := CollideRules(r, events);
    }
  }

  /** Lines 620-656: animation, then the survivors followed by the spawns. */
  method ReapPhase(pool: ObjectPool, w: World, c: Ctx) returns (r: World)
    requires w.pools == pool.pools
    modifies pool
    ensures r == Reaped(w, c) && pool.pools == r.pools
  {
    var objs := AnimateLive(w.objs, w.recycle, c.dtMs, c.scale.effect);
    var live := Reap(pool, objs, w.recycle, w.spawns);
    r := w.(objs := live, pools := pool.pools);
  }

  /** Lines 298-656: the phases of one tick in order; a pending scene
      switch ends the tick after the phase that asked for it. */
  method TickPhases(pool: ObjectPool, w: World, events: seq<GameEvent>, c: Ctx) returns (r: World)
    requires w.pools == pool.pools
    modifies pool
    ensures r == TickWorld(w, events, c) && pool.pools == r.pools
    ensures ParkedOffWorld(w.pools) ==> ParkedOffWorld(r.pools)
  {
    TickKeepsPools(w, events, c);
    var starts;
    r, starts := RulesPhase(pool, w, events, c);
    if r.switchTo.None? {
      r := CollisionsPhase(r, starts, events, c);
      if r.switchTo.None? {
        r := ReapPhase(pool, r, c);
      }
    }
  }

  /**
   * The state GameRuntime keeps between frames. The frame callback is the
   * closure of the first render, so the scene whose rules the tick runs and
   * the view it uses are fixed when play starts (`ruleSceneId`, `view`),
   * while `activeSceneId` follows scene switches.
   */
  class Runtime {
    const scenes: seq<Scene>
    const globals: seq<Variable>
    const ruleSceneId: Id
    const view: ViewType
    const pool: ObjectPool
    var activeSceneId: Id
    var objects: seq<RuntimeObject>
    var vars: NumVars
    var prefabs: map<Id, GameObject>
    var cooldowns: map<Id, real>
    var hitStop: real
    var lastTime: real
    var nextId: nat

    ghost predicate Valid()
      reads this, pool
    {
      ParkedOffWorld(pool.pools)
    }

    /** Lines 36-56 and 226-234: the globals at their initial values, then
        the editor's current scene loaded, keeping them. */
    constructor (scenes: seq<Scene>, globals: seq<Variable>, startSceneId: Id, now: real, firstId: nat)
      ensures Valid()
      ensures this.scenes == scenes && this.globals == globals
      ensures ruleSceneId == startSceneId && view == ViewOf(scenes, startSceneId)
      ensures activeSceneId == startSceneId
      ensures FindScene(scenes, startSceneId).None? ==>
        objects == [] && vars == Overlay(map[], globals) && prefabs == map[] && pool.pools == map[]
        && nextId == firstId && lastTime == 0.0
      ensures FindScene(scenes, startSceneId).Some? ==>
        var s := FindScene(scenes, startSceneId).value;
        var l := LoadedScene(s, firstId);
        && objects == l.instances && prefabs == l.prefabs && pool.pools == l.pools && nextId == l.nextId
        && vars == SceneVars(Overlay(map[], globals), globals, s, true)
        && cooldowns == map[] && hitStop == 0.0 && lastTime == now
    {
      this.scenes := scenes;
      this.globals := globals;
      ruleSceneId := startSceneId;
      view := ViewOf(scenes, startSceneId);
      pool := new ObjectPool();
      activeSceneId := startSceneId;
      objects := [];
      prefabs := map[];
      cooldowns := map[];
      hitStop := 0.0;
      lastTime := 0.0;
      nextId := firstId;
      vars := map[];
      new;
      vars := OverlayVars(map[], globals);
      LoadScene(startSceneId, true, now);
    }

    /** Lines 91-140: switch to a scene. An unknown scene changes nothing. */
    method LoadScene(sceneId: Id, keepGlobals: bool, now: real)
      requires Valid()
      modifies this, pool
      ensures Valid()
      ensures FindScene(scenes, sceneId).None? ==> unchanged(this, pool)
      ensures FindScene(scenes, sceneId).Some? ==>
        var s := FindScene(scenes, sceneId).value;
        var l := LoadedScene(s, old(nextId));
        && activeSceneId == sceneId
        && objects == l.instances && prefabs == l.prefabs && pool.pools == l.pools && nextId == l.nextId
        && vars == SceneVars(old(vars), globals, s, keepGlobals)
        && cooldowns == map[] && hitStop == 0.0 && lastTime == now
    {
      var found := FindScene(scenes, sceneId);
      if found.None? {
        return;
      }
      var s := found.value;
      activeSceneId := sceneId;
      hitStop := 0.0;
      pool.Clear();
      cooldowns := map[];
      vars := StartingVars(vars, globals, s, keepGlobals);
      var l := LoadTemplates(pool, s.objects, nextId);
      objects := l.instances;
      prefabs := l.prefabs;
      nextId := l.nextId;
      lastTime := now;
    }

    /** Lines 279-661: one frame at time `time` (ms) with `keys` held.
        `spawnSec` is the clock the spawner reads, `trig` and `heading` the
        trigonometry. Returns the
        scene the frame asks to switch to; the caller loads it afterwards
        (the source defers `loadScene(id, true)` with a timeout). */
    method Tick(time: real, keys: set<string>, spawnSec: real, trig: Trig, heading: Heading) returns (switchTo: Option<Id>)
      requires Valid()
      modifies this, pool
      ensures Valid()
      ensures lastTime == time && prefabs == old(prefabs) && activeSceneId == old(activeSceneId)
      ensures var scale := FrameScale(old(hitStop), time - old(lastTime));
        match FindScene(scenes, ruleSceneId)
        case None =>
          && objects == old(objects) && vars == old(vars) && cooldowns == old(cooldowns)
          && hitStop == scale.hitStop && pool.pools == old(pool.pools) && nextId == old(nextId) && switchTo == None
        case Some(s) =>
          var c := Ctx(keys, time / 1000.0, spawnSec, time - old(lastTime), scale, view, prefabs, trig, heading);
          var w := TickWorld(World(old(objects), old(vars), old(cooldowns), scale.hitStop, old(pool.pools),
                                   old(nextId), {}, [], None), s.events, c);
          && objects == w.objs && vars == w.vars && cooldowns == w.cooldowns && hitStop == w.hitStop
          && pool.pools == w.pools && nextId == w.nextId && switchTo == w.switchTo
    {
      var dtMs := time - lastTime;
      lastTime := time;
      var scale := FrameScale(hitStop, dtMs);
      hitStop := scale.hitStop;
      var found := FindScene(scenes, ruleSceneId);
      if found.None? {
        return None;
      }
      var events := found.value.events;
      var c := Ctx(keys, time / 1000.0, spawnSec, dtMs, scale, view, prefabs, trig, heading);
      var w := World(objects, vars, cooldowns, hitStop, pool.pools, nextId, {}, [], None);
      w := TickPhases(pool, w, events, c);
      objects, vars, cooldowns, hitStop, nextId := w.objs, w.vars, w.cooldowns, w.hitStop, w.nextId;
      switchTo := w.switchTo;
    }
  }
}
