/**
 * One simulation tick of play mode (components/GameRuntime.tsx, lines
 * 294-661) as a function of the state it reads and writes. Each phase
 * visits the objects (or rules) in order, and each visit sees the effects of
 * the earlier ones; the phases are written as folds over a prefix so that
 * the loops of the running game (module Play) can be proved against them.
 */
module Tick {
  import opened Wrappers
  import opened Types
  import opened RuntimeObjects
  import opened Rules
  import opened Physics
  import opened Animations
  import opened Pooling

  /** `Math.atan2(dy, dx)` in degrees. */
  type Heading = (real, real) -> real

  /** What a tick reads but does not change: the held keys, the clocks (the
      frame time in seconds and the clock `spawnObject` reads), the frame
      length, the time scale, the view, the prefab registry, and the
      trigonometry the top-down view needs. */
  datatype Ctx = Ctx(keys: set<string>, nowSec: real, spawnSec: real, dtMs: real, scale: TimeScale,
                     view: ViewType, prefabs: map<Id, GameObject>, trig: Trig, heading: Heading)

  /** What a tick changes: the live objects, the global variables, the rule
      cooldowns, the hit-stop timer, the pools and the id counter, plus the
      tick's own recycle set, new spawns and pending scene switch. */
  datatype World = World(objs: seq<RuntimeObject>, vars: NumVars, cooldowns: map<Id, real>, hitStop: real,
                         pools: Pools, nextId: nat, recycle: set<Id>, spawns: seq<RuntimeObject>,
                         switchTo: Option<Id>)

  /** The same objects, by id, in the same places. */
  predicate SameIds(a: seq<RuntimeObject>, b: seq<RuntimeObject>) {
    |a| == |b| && forall k :: 0 <= k < |a| ==> a[k].id == b[k].id
  }

  // ---------------------------------------------------------------- 0. timers

  datatype TimersResult = TimersResult(objs: seq<RuntimeObject>, recycle: set<Id>, starts: map<Id, (real, real)>)

  /** Lines 312-323 over the first `n` objects: the objects with their timers stepped. */
  function Stepped(objs: seq<RuntimeObject>, simDt: real, effect: real, n: nat): (r: seq<RuntimeObject>)
    requires n <= |objs|
    ensures |r| == |objs|
  {
    if n == 0 then objs
    else Stepped(objs, simDt, effect, n - 1)[n - 1 := StepTimers(objs[n - 1], simDt, effect).obj]
  }

  /** Lines 316-321 over the first `n` objects: the ids whose lifetime ran out. */
  function Expired(objs: seq<RuntimeObject>, simDt: real, effect: real, n: nat): set<Id>
    requires n <= |objs|
  {
    if n == 0 then {}
    else
      var o := objs[n - 1];
      Expired(objs, simDt, effect, n - 1) + if LifetimeRunsOut(o.variables, simDt, effect) then {o.id} else {}
  }

  /** Line 310 over the first `n` objects: where each object started the tick. */
  function Starts(objs: seq<RuntimeObject>, n: nat): map<Id, (real, real)>
    requires n <= |objs|
  {
    if n == 0 then map[] else Starts(objs, n - 1)[objs[n - 1].id := (objs[n - 1].x, objs[n - 1].y)]
  }

  /** Lines 307-323 over the first `n` objects. */
  function Timers(objs: seq<RuntimeObject>, simDt: real, effect: real, n: nat): (r: TimersResult)
    requires n <= |objs|
    ensures |r.objs| == |objs|
  {
    TimersResult(Stepped(objs, simDt, effect, n), Expired(objs, simDt, effect, n), Starts(objs, n))
  }

  /** Every object's timers are stepped once, and every object's starting
      position is recorded. */
  lemma {:induction false} TimersSpec(objs: seq<RuntimeObject>, simDt: real, effect: real, n: nat)
    requires n <= |objs|
    ensures var r := Timers(objs, simDt, effect, n);
      && (forall k :: 0 <= k < n ==> r.objs[k] == StepTimers(objs[k], simDt, effect).obj)
      && (forall k :: n <= k < |objs| ==> r.objs[k] == objs[k])
      && (forall k :: 0 <= k < n ==> objs[k].id in r.starts)
  {
    if n > 0 {
      TimersSpec(objs, simDt, effect, n - 1);
    }
  }

  /** Only an object whose lifetime ran out this frame is marked for recycling. */
  lemma {:induction false} ExpiredRanOut(objs: seq<RuntimeObject>, simDt: real, effect: real, n: nat)
    requires n <= |objs|
    ensures forall id :: id in Expired(objs, simDt, effect, n) ==>
      exists k :: 0 <= k < n && objs[k].id == id && LifetimeRunsOut(objs[k].variables, simDt, effect)
  {
    if n > 0 {
      ExpiredRanOut(objs, simDt, effect, n - 1);
    }
  }

  /** Every object whose lifetime ran out this frame is marked for recycling. */
  lemma {:induction false} RanOutExpired(objs: seq<RuntimeObject>, simDt: real, effect: real, n: nat)
    requires n <= |objs|
    ensures forall k :: 0 <= k < n && LifetimeRunsOut(objs[k].variables, simDt, effect) ==>
      objs[k].id in Expired(objs, simDt, effect, n)
  {
    if n > 0 {
      RanOutExpired(objs, simDt, effect, n - 1);
    }
  }

  // ---------------------------------------------------------------- 1. rules

  /** Lines 406-424 for the source at index `k`. */
  function SpawnOne(w: World, a: Action, c: Ctx, k: nat): (r: World)
    requires k < |w.objs|
    ensures |r.objs| == |w.objs|
    ensures SameIds(r.objs, w.objs)
  {
    var src := w.objs[k];
    if !TypeIs(src, OrDefault(a.target, "Player")) then w
    else
      var g := SpawnGate(src, c.spawnSec);
      if !g.allowed then w
      else
        var w1 := w.(objs := w.objs[k := g.source]);
        if a.prefabId !in c.prefabs then w1
        else
          var prefab := c.prefabs[a.prefabId];
          var acq := Acquired(w1.pools, prefab, CreateRuntimeObjectFromPrefab, w1.nextId);
          var (x, y) := SpawnPoint(g.source, a);
          w1.(pools := acq.pools, nextId := acq.nextId,
              spawns := w1.spawns + [Place(acq.obj, prefab, x, y, g.source, c.view, c.trig)])
  }

  /** Lines 398-426: CREATE_OBJECT from every source of the target type among the first `n` objects. */
  function SpawnFrom(w: World, a: Action, c: Ctx, n: nat): (r: World)
    requires n <= |w.objs|
    ensures |r.objs| == |w.objs|
  {
    if n == 0 then w else SpawnOne(SpawnFrom(w, a, c, n - 1), a, c, n - 1)
  }

  /** Lines 428-480 for the object at index `k`. */
  function TargetOne(w: World, e: GameEvent, c: Ctx, k: nat): (r: World)
    requires k < |w.objs|
    ensures |r.objs| == |w.objs|
    ensures r.pools == w.pools && r.nextId == w.nextId && r.spawns == w.spawns && r.cooldowns == w.cooldowns
    ensures SameIds(r.objs, w.objs)
  {
    var o := w.objs[k];
    if !IsRuleTarget(e, o) then w
    else
      var r := ApplyAction(o, e.action, c.scale.physics);
      w.(objs := w.objs[k := r.obj],
         recycle := if r.destroyed then w.recycle + {o.id} else w.recycle,
         hitStop := if r.hitStop then HitStopOnHit else w.hitStop)
  }

  function TargetAll(w: World, e: GameEvent, c: Ctx, n: nat): (r: World)
    requires n <= |w.objs|
    ensures |r.objs| == |w.objs|
    ensures r.pools == w.pools && r.nextId == w.nextId && r.spawns == w.spawns && r.cooldowns == w.cooldowns
  {
    if n == 0 then w else TargetOne(TargetAll(w, e, c, n - 1), e, c, n - 1)
  }

  /** Whether a non-collision rule fires this tick. */
  predicate Fires(w: World, e: GameEvent, c: Ctx) {
    e.condition.ctype != COLLISION &&
    ConditionMet(e.condition, w.objs, w.vars, c.keys) && CooledDown(e, w.cooldowns, c.nowSec)
  }

  /** The parts of a firing rule that do not visit objects: its cooldown, a
      scene switch and a global-variable action (the latter not while frozen). */
  function Fire(w: World, e: GameEvent, c: Ctx): (r: World)
    ensures r.objs == w.objs
  {
    var a := e.action;
    w.(cooldowns := RecordRun(w.cooldowns, e, c.nowSec),
       switchTo := if a.atype == GOTO_SCENE && HasId(a.sceneId) then Some(a.sceneId) else w.switchTo,
       vars := if c.scale.effect > 0.0 then ApplyVarAction(w.vars, a) else w.vars)
  }

  /** Lines 326-483 for one rule. */
  function RunRule(w: World, e: GameEvent, c: Ctx): (r: World)
    ensures |r.objs| == |w.objs|
  {
    if !Fires(w, e, c) then w
    else
      var w1 := Fire(w, e, c);
      if c.scale.effect > 0.0 then
        var a := e.action;
        var w2 := if a.atype == CREATE_OBJECT && HasId(a.prefabId) then SpawnFrom(w1, a, c, |w1.objs|) else w1;
        TargetAll(w2, e, c, |w2.objs|)
      else w1
  }

  function RunRules(w: World, events: seq<GameEvent>, c: Ctx, n: nat): (r: World)
    requires n <= |events|
    ensures |r.objs| == |w.objs|
  {
    if n == 0 then w else RunRule(RunRules(w, events, c, n - 1), events[n - 1], c)
  }

  // ---------------------------------------------------------------- rotation

  /** Lines 494-503: a player that moved more than 0.01 px on either axis
      since the start of the tick faces the way it moved. */
  function Rotated(o: RuntimeObject, starts: map<Id, (real, real)>, heading: Heading): RuntimeObject {
    if o.otype == Player && o.id in starts then
      var dx := o.x - starts[o.id].0;
      var dy := o.y - starts[o.id].1;
      if Abs(dx) > 0.01 || Abs(dy) > 0.01 then o.(rotation := heading(dy, dx)) else o
    else o
  }

  function RotateAll(objs: seq<RuntimeObject>, starts: map<Id, (real, real)>, heading: Heading, n: nat): (r: seq<RuntimeObject>)
    requires n <= |objs|
    ensures |r| == |objs|
  {
    if n == 0 then objs else RotateAll(objs, starts, heading, n - 1)[n - 1 := Rotated(objs[n - 1], starts, heading)]
  }

  // ---------------------------------------------------------------- 2. physics

  /** Line 508: the solid objects not marked for recycling. */
  function Solids(objs: seq<RuntimeObject>, recycle: set<Id>): (s: seq<RuntimeObject>)
    ensures forall o :: o in s <==> o in objs && o.hasCollision && o.id !in recycle
  {
    if objs == [] then []
    else
      var rest := Solids(objs[..|objs| - 1], recycle);
      var o := objs[|objs| - 1];
      assert objs == objs[..|objs| - 1] + [o];
      if o.hasCollision && o.id !in recycle then rest + [o] else rest
  }

  /** Lines 512-561 for the object at index `k`, against the solids as they are now. */
  function PhysicsStep(cur: seq<RuntimeObject>, k: nat, recycle: set<Id>, physics: real): (r: RuntimeObject)
    requires k < |cur|
    ensures r.id == cur[k].id
  {
    var o := cur[k];
    if o.id in recycle then o
    else
      var m := MoveBody(o, physics);
      MoveBodyKeepsIdentity(o, physics);
      if m.hasCollision then
        ResolveAllKeepsIdentity(m, Solids(cur, recycle));
        ResolveAll(m, Solids(cur, recycle))
      else m
  }

  function PhysicsAll(objs: seq<RuntimeObject>, recycle: set<Id>, physics: real, n: nat): (r: seq<RuntimeObject>)
    requires n <= |objs|
    ensures |r| == |objs|
  {
    if n == 0 then objs
    else
      var cur := PhysicsAll(objs, recycle, physics, n - 1);
      cur[n - 1 := PhysicsStep(cur, n - 1, recycle, physics)]
  }

  // ---------------------------------------------------------------- 3. collision rules

  /** Lines 580-585. */
  predicate IsCollisionTarget(a: Action, o: RuntimeObject, sub: RuntimeObject, tgt: RuntimeObject) {
    (a.target == "OTHER" && o.id == tgt.id) || (a.target == "SELF" && o.id == sub.id) || a.target == TypeName(o.otype)
  }

  /** An object-variable change on the object at index `k`, when `on`. */
  function ChangeAt(w: World, a: Action, k: nat, on: bool): (r: World)
    requires k < |w.objs|
    ensures |r.objs| == |w.objs|
    ensures r.pools == w.pools && r.nextId == w.nextId && r.spawns == w.spawns && r.cooldowns == w.cooldowns
    ensures SameIds(r.objs, w.objs)
  {
    if !on then w
    else
      var ch := ApplyObjectVarChange(w.objs[k], a.atype, a.variableName, a.value);
      w.(objs := w.objs[k := ch.obj], hitStop := if ch.hitStop then HitStopOnHit else w.hitStop)
  }

  function ReverseAt(objs: seq<RuntimeObject>, k: nat, on: bool, horizontal: bool): (r: seq<RuntimeObject>)
    requires k < |objs|
    ensures |r| == |objs|
    ensures SameIds(r, objs)
  {
    if !on then objs else objs[k := if horizontal then ReverseX(objs[k]) else ReverseY(objs[k])]
  }

  /** Lines 577-607: the action of a collision rule for the colliding pair
      (subject at `i`, target at `j`). */
  function CollisionAction(w: World, a: Action, i: nat, j: nat): (r: World)
    requires i < |w.objs| && j < |w.objs|
    ensures |r.objs| == |w.objs|
    ensures r.pools == w.pools && r.nextId == w.nextId && r.spawns == w.spawns && r.cooldowns == w.cooldowns
    ensures SameIds(r.objs, w.objs)
  {
    var sub := w.objs[i];
    var tgt := w.objs[j];
    var onSub := IsCollisionTarget(a, sub, sub, tgt);
    var onTgt := IsCollisionTarget(a, tgt, sub, tgt);
    if a.atype == DESTROY then
      w.(recycle := w.recycle + (if onSub then {sub.id} else {}) + (if onTgt then {tgt.id} else {}))
    else if a.atype == REVERSE_X || a.atype == REVERSE_Y then
      var h := a.atype == REVERSE_X;
      w.(objs := ReverseAt(ReverseAt(w.objs, i, onSub, h), j, onTgt, h))
    else if a.atype == GOTO_SCENE && HasId(a.sceneId) then w.(switchTo := Some(a.sceneId))
    else if IsVarAction(a.atype) then w.(vars := ApplyVarAction(w.vars, a))
    else if IsObjVarAction(a.atype) && a.variableName != "" then ChangeAt(ChangeAt(w, a, i, onSub), a, j, onTgt)
    else w
  }

  /** Lines 573-608 for one (subject, target) pair of indices. */
  function Pair(w: World, e: GameEvent, i: nat, j: nat): (r: World)
    requires i < |w.objs| && j < |w.objs|
    ensures |r.objs| == |w.objs|
    ensures r.pools == w.pools && r.nextId == w.nextId && r.spawns == w.spawns && r.cooldowns == w.cooldowns
    ensures SameIds(r.objs, w.objs)
  {
    var sub := w.objs[i];
    var tgt := w.objs[j];
    if !TypeIs(sub, OrDefault(e.condition.target, "Player")) || !TypeIs(tgt, e.condition.param) then w
    else if sub.id == tgt.id || !CheckIntersection(sub, tgt) then w
    else CollisionAction(w, e.action, i, j)
  }

  /** The subject at `i` against the first `m` objects. */
  function PairsWith(w: World, e: GameEvent, i: nat, m: nat): (r: World)
    requires i < |w.objs| && m <= |w.objs|
    ensures |r.objs| == |w.objs|
    ensures r.pools == w.pools && r.nextId == w.nextId && r.spawns == w.spawns && r.cooldowns == w.cooldowns
  {
    if m == 0 then w else Pair(PairsWith(w, e, i, m - 1), e, i, m - 1)
  }

  /** Every pair whose subject is among the first `n` objects. */
  function Subjects(w: World, e: GameEvent, n: nat): (r: World)
    requires n <= |w.objs|
    ensures |r.objs| == |w.objs|
    ensures r.pools == w.pools && r.nextId == w.nextId && r.spawns == w.spawns && r.cooldowns == w.cooldowns
  {
    if n == 0 then w
    else
      var w1 := Subjects(w, e, n - 1);
      PairsWith(w1, e, n - 1, |w1.objs|)
  }

  function CollideRule(w: World, e: GameEvent): (r: World)
    ensures |r.objs| == |w.objs|
    ensures r.pools == w.pools && r.nextId == w.nextId && r.spawns == w.spawns && r.cooldowns == w.cooldowns
  {
    if e.condition.ctype != COLLISION then w else Subjects(w, e, |w.objs|)
  }

  function CollideAll(w: World, events: seq<GameEvent>, n: nat): (r: World)
    requires n <= |events|
    ensures |r.objs| == |w.objs|
    ensures r.pools == w.pools && r.nextId == w.nextId && r.spawns == w.spawns && r.cooldowns == w.cooldowns
  {
    if n == 0 then w else CollideRule(CollideAll(w, events, n - 1), events[n - 1])
  }

  // ---------------------------------------------------------------- 4. animation

  function AnimateAll(objs: seq<RuntimeObject>, recycle: set<Id>, dtMs: real, effect: real, n: nat): (r: seq<RuntimeObject>)
    requires n <= |objs|
    ensures |r| == |objs|
  {
    if n == 0 then objs
    else
      var o := objs[n - 1];
      AnimateAll(objs, recycle, dtMs, effect, n - 1)[n - 1 := if o.id in recycle then o else StepAnimation(o, dtMs, effect)]
  }

  // ---------------------------------------------------------------- reap and spawn

  /** Lines 649-656: the objects not marked for recycling, in order. */
  function Survivors(objs: seq<RuntimeObject>, recycle: set<Id>): (s: seq<RuntimeObject>)
    ensures |s| <= |objs|
  {
    if objs == [] then []
    else
      var o := objs[|objs| - 1];
      var rest := Survivors(objs[..|objs| - 1], recycle);
      if o.id in recycle then rest else rest + [o]
  }

  /** The pools after every recycled object among the first `n` is handed back. */
  function ReturnAll(pools: Pools, objs: seq<RuntimeObject>, recycle: set<Id>, n: nat): Pools
    requires n <= |objs|
  {
    if n == 0 then pools
    else
      var p := ReturnAll(pools, objs, recycle, n - 1);
      if objs[n - 1].id in recycle && HasId(objs[n - 1].originalPrefabId) then Returned(p, objs[n - 1]) else p
  }

  // ---------------------------------------------------------------- the whole tick

  /** The world after the rules phase: timers stepped and every non-collision rule run. */
  function AfterRules(w: World, events: seq<GameEvent>, c: Ctx): World {
    var t := Timers(w.objs, c.scale.simDt, c.scale.effect, |w.objs|);
    RunRules(w.(objs := t.objs, recycle := t.recycle), events, c, |events|)
  }

  /** The world after physics and the collision rules. */
  function AfterCollisions(w2: World, starts: map<Id, (real, real)>, events: seq<GameEvent>, c: Ctx): World {
    var objs3 := if c.view == TOP_DOWN then RotateAll(w2.objs, starts, c.heading, |w2.objs|) else w2.objs;
    var objs4 := if c.scale.effect > 0.0 then PhysicsAll(objs3, w2.recycle, c.scale.physics, |objs3|) else objs3;
    var w4 := w2.(objs := objs4);
    if c.scale.effect > 0.0 then CollideAll(w4, events, |events|) else w4
  }

  /** The end of the tick: animation, then the survivors followed by the new spawns. */
  function Reaped(w5: World, c: Ctx): World {
    var objs6 := AnimateAll(w5.objs, w5.recycle, c.dtMs, c.scale.effect, |w5.objs|);
    w5.(objs := Survivors(objs6, w5.recycle) + w5.spawns,
        pools := ReturnAll(w5.pools, objs6, w5.recycle, |objs6|))
  }

  /** Lines 298-660: the tick, starting from `w` with an empty recycle set,
      no spawns and no pending switch. A pending switch ends the tick early,
      with the live list as it is. */
  function TickWorld(w: World, events: seq<GameEvent>, c: Ctx): World {
    var w2 := AfterRules(w, events, c);
    if w2.switchTo.Some? then w2
    else
      var t := Timers(w.objs, c.scale.simDt, c.scale.effect, |w.objs|);
      var w5 := AfterCollisions(w2, t.starts, events, c);
      if w5.switchTo.Some? then w5 else Reaped(w5, c)
  }
}
