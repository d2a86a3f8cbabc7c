/**
 * What one tick promises as a whole (components/GameRuntime.tsx, lines
 * 294-661): the pools keep their invariants, a missing prefab spawns
 * nothing, collision rules never pair an object with itself and read SELF
 * and OTHER as the subject and the target, a scene switch leaves the live
 * list as it was, and otherwise the survivors come first and the spawns last.
 */
module TickProperties {
  import opened Wrappers
  import opened Types
  import opened RuntimeObjects
  import opened Rules
  import opened Pooling
  import opened Tick
  import Animations

  // ---------------------------------------------------------------- identity
  // No phase adds, removes or reorders live objects: each keeps every id in its place.

  lemma SameIdsThrough(a: seq<RuntimeObject>, b: seq<RuntimeObject>, c: seq<RuntimeObject>)
    requires SameIds(a, b) && SameIds(b, c)
    ensures SameIds(a, c)
  {
  }

  lemma {:induction false} TimersKeepIds(objs: seq<RuntimeObject>, simDt: real, effect: real, n: nat)
    requires n <= |objs|
    ensures SameIds(Stepped(objs, simDt, effect, n), objs)
  {
    if n > 0 {
      TimersKeepIds(objs, simDt, effect, n - 1);
    }
  }

  lemma {:induction false} SpawnFromKeepsIds(w: World, a: Action, c: Ctx, n: nat)
    requires n <= |w.objs|
    ensures SameIds(SpawnFrom(w, a, c, n).objs, w.objs)
  {
    if n > 0 {
      SpawnFromKeepsIds(w, a, c, n - 1);
      var p := SpawnFrom(w, a, c, n - 1);
      SameIdsThrough(SpawnOne(p, a, c, n - 1).objs, p.objs, w.objs);
    }
  }

  lemma {:induction false} TargetAllKeepsIds(w: World, e: GameEvent, c: Ctx, n: nat)
    requires n <= |w.objs|
    ensures SameIds(TargetAll(w, e, c, n).objs, w.objs)
  {
    if n > 0 {
      TargetAllKeepsIds(w, e, c, n - 1);
      var p := TargetAll(w, e, c, n - 1);
      SameIdsThrough(TargetOne(p, e, c, n - 1).objs, p.objs, w.objs);
    }
  }

  lemma {:induction false} RunRulesKeepIds(w: World, events: seq<GameEvent>, c: Ctx, n: nat)
    requires n <= |events|
    ensures SameIds(RunRules(w, events, c, n).objs, w.objs)
  {
    if n > 0 {
      RunRulesKeepIds(w, events, c, n - 1);
      var w0 := RunRules(w, events, c, n - 1);
      var e := events[n - 1];
      if Fires(w0, e, c) && c.scale.effect > 0.0 {
        var w1 := Fire(w0, e, c);
        var w2 := if e.action.atype == CREATE_OBJECT && HasId(e.action.prefabId) then SpawnFrom(w1, e.action, c, |w1.objs|) else w1;
        SpawnFromKeepsIds(w1, e.action, c, |w1.objs|);
        TargetAllKeepsIds(w2, e, c, |w2.objs|);
      }
    }
  }

  lemma {:induction false} RotateAllKeepsIds(objs: seq<RuntimeObject>, starts: map<Id, (real, real)>, heading: Heading, n: nat)
    requires n <= |objs|
    ensures SameIds(RotateAll(objs, starts, heading, n), objs)
  {
    if n > 0 {
      RotateAllKeepsIds(objs, starts, heading, n - 1);
    }
  }

  lemma {:induction false} PhysicsAllKeepsIds(objs: seq<RuntimeObject>, recycle: set<Id>, physics: real, n: nat)
    requires n <= |objs|
    ensures SameIds(PhysicsAll(objs, recycle, physics, n), objs)
  {
    if n > 0 {
      PhysicsAllKeepsIds(objs, recycle, physics, n - 1);
    }
  }

  lemma {:induction false} PairsWithKeepsIds(w: World, e: GameEvent, i: nat, m: nat)
    requires i < |w.objs| && m <= |w.objs|
    ensures SameIds(PairsWith(w, e, i, m).objs, w.objs)
  {
    if m > 0 {
      PairsWithKeepsIds(w, e, i, m - 1);
      var p := PairsWith(w, e, i, m - 1);
      SameIdsThrough(Pair(p, e, i, m - 1).objs, p.objs, w.objs);
    }
  }

  lemma {:induction false} SubjectsKeepIds(w: World, e: GameEvent, n: nat)
    requires n <= |w.objs|
    ensures SameIds(Subjects(w, e, n).objs, w.objs)
  {
    if n > 0 {
      SubjectsKeepIds(w, e, n - 1);
      var w1 := Subjects(w, e, n - 1);
      PairsWithKeepsIds(w1, e, n - 1, |w1.objs|);
      SameIdsThrough(PairsWith(w1, e, n - 1, |w1.objs|).objs, w1.objs, w.objs);
    }
  }

  lemma {:induction false} CollideAllKeepsIds(w: World, events: seq<GameEvent>, n: nat)
    requires n <= |events|
    ensures SameIds(CollideAll(w, events, n).objs, w.objs)
  {
    if n > 0 {
      CollideAllKeepsIds(w, events, n - 1);
      var w0 := CollideAll(w, events, n - 1);
      if events[n - 1].condition.ctype == COLLISION {
        SubjectsKeepIds(w0, events[n - 1], |w0.objs|);
      }
    }
  }

  lemma {:induction false} AnimateAllKeepsIds(objs: seq<RuntimeObject>, recycle: set<Id>, dtMs: real, effect: real, n: nat)
    requires n <= |objs|
    ensures SameIds(AnimateAll(objs, recycle, dtMs, effect, n), objs)
  {
    if n > 0 {
      AnimateAllKeepsIds(objs, recycle, dtMs, effect, n - 1);
      Animations.StepAnimationIsLocal(objs[n - 1], dtMs, effect);
    }
  }

  lemma AfterRulesKeepsIds(w: World, events: seq<GameEvent>, c: Ctx)
    ensures SameIds(AfterRules(w, events, c).objs, w.objs)
  {
    var t := Timers(w.objs, c.scale.simDt, c.scale.effect, |w.objs|);
    TimersKeepIds(w.objs, c.scale.simDt, c.scale.effect, |w.objs|);
    RunRulesKeepIds(w.(objs := t.objs, recycle := t.recycle), events, c, |events|);
  }

  lemma AfterCollisionsKeepsIds(w2: World, starts: map<Id, (real, real)>, events: seq<GameEvent>, c: Ctx)
    ensures SameIds(AfterCollisions(w2, starts, events, c).objs, w2.objs)
  {
    var objs3 := if c.view == TOP_DOWN then RotateAll(w2.objs, starts, c.heading, |w2.objs|) else w2.objs;
    RotateAllKeepsIds(w2.objs, starts, c.heading, |w2.objs|);
    PhysicsAllKeepsIds(objs3, w2.recycle, c.scale.physics, |objs3|);
    var objs4 := if c.scale.effect > 0.0 then PhysicsAll(objs3, w2.recycle, c.scale.physics, |objs3|) else objs3;
    CollideAllKeepsIds(w2.(objs := objs4), events, |events|);
  }

  // ---------------------------------------------------------------- spawning

  /** Lines 166-167: a prefab the registry does not hold spawns nothing and
      leaves the pools and the id counter alone. */
  lemma {:induction false} MissingPrefabSpawnsNothing(w: World, a: Action, c: Ctx, n: nat)
    requires n <= |w.objs| && a.prefabId !in c.prefabs
    ensures var r := SpawnFrom(w, a, c, n);
      r.spawns == w.spawns && r.pools == w.pools && r.nextId == w.nextId
  {
    if n > 0 {
      MissingPrefabSpawnsNothing(w, a, c, n - 1);
    }
  }

  /** Spawning takes from the pools only through `get`: no pool loses an
      entry and inactive entries stay parked. */
  lemma {:induction false} SpawnFromKeepsPools(w: World, a: Action, c: Ctx, n: nat)
    requires n <= |w.objs|
    ensures var r := SpawnFrom(w, a, c, n);
      NoShrink(w.pools, r.pools) && (ParkedOffWorld(w.pools) ==> ParkedOffWorld(r.pools))
  {
    if n > 0 {
      SpawnFromKeepsPools(w, a, c, n - 1);
      var w1 := SpawnFrom(w, a, c, n - 1);
      var src := w1.objs[n - 1];
      if TypeIs(src, OrDefault(a.target, "Player")) && SpawnGate(src, c.spawnSec).allowed && a.prefabId in c.prefabs {
        GetKeepsInvariants(w1.pools, c.prefabs[a.prefabId], CreateRuntimeObjectFromPrefab, w1.nextId);
      }
    }
  }

  lemma {:induction false} RunRulesKeepsPools(w: World, events: seq<GameEvent>, c: Ctx, n: nat)
    requires n <= |events|
    ensures var r := RunRules(w, events, c, n);
      NoShrink(w.pools, r.pools) && (ParkedOffWorld(w.pools) ==> ParkedOffWorld(r.pools))
  {
    if n > 0 {
      RunRulesKeepsPools(w, events, c, n - 1);
      var w0 := RunRules(w, events, c, n - 1);
      var e := events[n - 1];
      if Fires(w0, e, c) && c.scale.effect > 0.0 && e.action.atype == CREATE_OBJECT && HasId(e.action.prefabId) {
        var w1 := Fire(w0, e, c);
        SpawnFromKeepsPools(w1, e.action, c, |w1.objs|);
      }
    }
  }

  // ---------------------------------------------------------------- collision rules

  /** Lines 580-585: SELF names the subject and OTHER the target, whatever their types. */
  lemma SelfAndOther(a: Action, o: RuntimeObject, sub: RuntimeObject, tgt: RuntimeObject)
    ensures a.target == "SELF" ==> (IsCollisionTarget(a, o, sub, tgt) <==> o.id == sub.id)
    ensures a.target == "OTHER" ==> (IsCollisionTarget(a, o, sub, tgt) <==> o.id == tgt.id)
  {
    var name := TypeName(o.otype);
    assert name != "SELF" && name != "OTHER";
  }

  /** Line 575: an object is never paired with itself (nor with another
      object carrying its id). */
  lemma SelfPairsSkipped(w: World, e: GameEvent, i: nat, j: nat)
    requires i < |w.objs| && j < |w.objs| && w.objs[i].id == w.objs[j].id
    ensures Pair(w, e, i, j) == w
  {
  }

  /** Lines 586-588: a DESTROY collision rule marks the subject (SELF) or
      the target (OTHER), and nothing else. */
  lemma DestroyMarksOne(w: World, a: Action, i: nat, j: nat)
    requires i < |w.objs| && j < |w.objs| && w.objs[i].id != w.objs[j].id && a.atype == DESTROY
    ensures var r := CollisionAction(w, a, i, j);
      && r.objs == w.objs
      && (a.target == "SELF" ==> r.recycle == w.recycle + {w.objs[i].id})
      && (a.target == "OTHER" ==> r.recycle == w.recycle + {w.objs[j].id})
  {
    SelfAndOther(a, w.objs[i], w.objs[i], w.objs[j]);
    SelfAndOther(a, w.objs[j], w.objs[i], w.objs[j]);
  }

  // ---------------------------------------------------------------- reap

  /** Lines 649-656: the survivors are exactly the objects not marked for
      recycling. */
  lemma {:induction false} SurvivorsSpec(objs: seq<RuntimeObject>, recycle: set<Id>)
    ensures forall o :: o in Survivors(objs, recycle) ==> o in objs && o.id !in recycle
    ensures forall o :: o in objs && o.id !in recycle ==> o in Survivors(objs, recycle)
  {
    if objs != [] {
      var init := objs[..|objs| - 1];
      SurvivorsSpec(init, recycle);
      assert objs == init + [objs[|objs| - 1]];
    }
  }

  /** Two pool tables with the same prefabs, sizes and entry ids. */
  ghost predicate SameSlots(a: Pools, b: Pools) {
    && a.Keys == b.Keys
    && forall pid :: pid in a ==>
         |a[pid]| == |b[pid]| && forall j :: 0 <= j < |a[pid]| ==> a[pid][j].id == b[pid][j].id
  }

  lemma {:induction false} IndexOfIdSameIds(p: seq<RuntimeObject>, q: seq<RuntimeObject>, id: Id)
    requires |p| == |q| && forall j :: 0 <= j < |p| ==> p[j].id == q[j].id
    ensures IndexOfId(p, id) == IndexOfId(q, id)
  {
    if p != [] && p[0].id != id {
      IndexOfIdSameIds(p[1..], q[1..], id);
    }
  }

  /** One `returnObject`: slots and ids stay, and no entry is woken. */
  lemma ReturnedKeepsSlots(p: Pools, o: RuntimeObject)
    ensures var r := Returned(p, o);
      && SameSlots(p, r)
      && (forall pid, j :: pid in p && 0 <= j < |p[pid]| && !p[pid][j].active ==> !r[pid][j].active)
  {
    ReturnObjectSpec(p, o);
  }

  /** Lines 650-652 over the first `n` objects: the pools keep their slots
      and invariants, and the entry of every recycled pooled object is
      parked (inactive). */
  lemma {:induction false} ReturnAllSpec(pools: Pools, objs: seq<RuntimeObject>, recycle: set<Id>, n: nat)
    requires n <= |objs|
    ensures var r := ReturnAll(pools, objs, recycle, n);
      && SameSlots(pools, r)
      && (ParkedOffWorld(pools) ==> ParkedOffWorld(r))
      && (forall pid, j :: pid in pools && 0 <= j < |pools[pid]| && !pools[pid][j].active ==> !r[pid][j].active)
      && (forall m :: 0 <= m < n && objs[m].id in recycle && HasId(objs[m].originalPrefabId) && objs[m].originalPrefabId in pools ==>
            var pool := pools[objs[m].originalPrefabId];
            IndexOfId(pool, objs[m].id) < |pool| ==> !r[objs[m].originalPrefabId][IndexOfId(pool, objs[m].id)].active)
  {
    if n > 0 {
      ReturnAllSpec(pools, objs, recycle, n - 1);
      var p := ReturnAll(pools, objs, recycle, n - 1);
      var o := objs[n - 1];
      if o.id in recycle && HasId(o.originalPrefabId) {
        var r: Pools := Returned(p, o);
        ReturnedKeepsSlots(p, o);
        ReturnKeepsInvariants(p, o);
        var pid := o.originalPrefabId;
        if pid in pools {
          IndexOfIdSameIds(pools[pid], p[pid], o.id);
          ReturnObjectSpec(p, o);
        }
        forall m | 0 <= m < n && objs[m].id in recycle && HasId(objs[m].originalPrefabId) && objs[m].originalPrefabId in pools
          ensures var pool := pools[objs[m].originalPrefabId];
            IndexOfId(pool, objs[m].id) < |pool| ==> !r[objs[m].originalPrefabId][IndexOfId(pool, objs[m].id)].active
        {
          var q := objs[m].originalPrefabId;
          var pool := pools[q];
          var i := IndexOfId(pool, objs[m].id);
          if i < |pool| && m < n - 1 {
            assert !p[q][i].active;
          }
        }
      }
    }
  }

  // ---------------------------------------------------------------- the whole tick

  /** Lines 614-617: a tick that switches scene returns the live list as it
      was: the same objects by id, in the same places, none removed and no
      spawn appended. */
  lemma SwitchKeepsLiveList(w: World, events: seq<GameEvent>, c: Ctx)
    ensures var r := TickWorld(w, events, c);
      r.switchTo.Some? ==> SameIds(r.objs, w.objs)
  {
    AfterRulesKeepsIds(w, events, c);
    var w2 := AfterRules(w, events, c);
    var t := Timers(w.objs, c.scale.simDt, c.scale.effect, |w.objs|);
    AfterCollisionsKeepsIds(w2, t.starts, events, c);
  }

  /** Lines 648-657: the end of a tick is the survivors, none of them
      marked for recycling, followed by the spawns; every object not marked
      survives. */
  lemma ReapedSpec(w5: World, c: Ctx)
    ensures var r := Reaped(w5, c);
      var live := |r.objs| - |r.spawns|;
      && r.spawns == w5.spawns && r.recycle == w5.recycle
      && 0 <= live && r.objs[live..] == r.spawns
      && (forall k :: 0 <= k < live ==> r.objs[k].id !in r.recycle)
      && (forall k :: 0 <= k < |w5.objs| && w5.objs[k].id !in r.recycle ==>
            exists m :: 0 <= m < live && r.objs[m].id == w5.objs[k].id)
  {
    var r := Reaped(w5, c);
    var objs6 := AnimateAll(w5.objs, w5.recycle, c.dtMs, c.scale.effect, |w5.objs|);
    AnimateAllKeepsIds(w5.objs, w5.recycle, c.dtMs, c.scale.effect, |w5.objs|);
    var s := Survivors(objs6, w5.recycle);
    assert r.objs == s + w5.spawns;
    SurvivorsSpec(objs6, w5.recycle);
    forall k | 0 <= k < |s|
      ensures r.objs[k].id !in r.recycle
    {
      assert s[k] in s;
    }
    forall k | 0 <= k < |w5.objs| && w5.objs[k].id !in r.recycle
      ensures exists m :: 0 <= m < |s| && r.objs[m].id == w5.objs[k].id
    {
      assert objs6[k] in objs6;
      var m :| 0 <= m < |s| && s[m] == objs6[k];
      assert r.objs[m] == s[m];
    }
  }

  /** A tick that does not switch scene ends with the survivors followed by
      the spawns, and every object it started with that was not marked for
      recycling is among the survivors. */
  lemma EndOfTick(w: World, events: seq<GameEvent>, c: Ctx)
    ensures var r := TickWorld(w, events, c);
      r.switchTo.None? ==>
        var live := |r.objs| - |r.spawns|;
        && 0 <= live && r.objs[live..] == r.spawns
        && (forall k :: 0 <= k < live ==> r.objs[k].id !in r.recycle)
        && (forall k :: 0 <= k < |w.objs| && w.objs[k].id !in r.recycle ==>
              exists m :: 0 <= m < live && r.objs[m].id == w.objs[k].id)
  {
    var w2 := AfterRules(w, events, c);
    if w2.switchTo.None? {
      var t := Timers(w.objs, c.scale.simDt, c.scale.effect, |w.objs|);
      var w5 := AfterCollisions(w2, t.starts, events, c);
      if w5.switchTo.None? {
        ReapedSpec(w5, c);
        AfterRulesKeepsIds(w, events, c);
        AfterCollisionsKeepsIds(w2, t.starts, events, c);
      }
    }
  }

  /** Over a whole tick no pool loses an entry and inactive entries stay
      parked off-world. */
  lemma TickKeepsPools(w: World, events: seq<GameEvent>, c: Ctx)
    ensures var r := TickWorld(w, events, c);
      NoShrink(w.pools, r.pools) && (ParkedOffWorld(w.pools) ==> ParkedOffWorld(r.pools))
  {
    var t := Timers(w.objs, c.scale.simDt, c.scale.effect, |w.objs|);
    RunRulesKeepsPools(w.(objs := t.objs, recycle := t.recycle), events, c, |events|);
    var w2 := AfterRules(w, events, c);
    if w2.switchTo.None? {
      var w5 := AfterCollisions(w2, t.starts, events, c);
      if w5.switchTo.None? {
        var objs6 := AnimateAll(w5.objs, w5.recycle, c.dtMs, c.scale.effect, |w5.objs|);
        ReturnAllSpec(w5.pools, objs6, w5.recycle, |objs6|);
      }
    }
  }
}
