/**
 * What `loadScene` computes (components/GameRuntime.tsx, lines 91-140): the
 * play-time variable map and the split of a scene's templates into the
 * prefab registry, pre-filled pools and live objects.
 */
module SceneLoading {
  import opened Wrappers
  import opened Types
  import opened RuntimeObjects
  import opened Pooling
  import opened Rules

  /** `vs.forEach(v => m[v.id] = v.initialValue)`. */
  function Overlay(m: NumVars, vs: seq<Variable>): (r: NumVars)
    ensures r.Keys == m.Keys + set k | 0 <= k < |vs| :: vs[k].id
  {
    if vs == [] then m
    else
      var last := vs[|vs| - 1];
      var r := Overlay(m, vs[..|vs| - 1]);
      assert forall k :: 0 <= k < |vs| - 1 ==> vs[..|vs| - 1][k] == vs[k];
      r[last.id := last.initialValue]
  }

  predicate Declares(vs: seq<Variable>, id: Id) {
    exists k :: 0 <= k < |vs| && vs[k].id == id
  }

  /** Overlaying keeps every entry the variables do not name, and gives each
      named id the initial value of the last variable with that id. */
  lemma {:induction false} OverlaySpec(m: NumVars, vs: seq<Variable>)
    ensures var r := Overlay(m, vs);
      && (forall id :: !Declares(vs, id) ==> (id in r <==> id in m) && (id in m ==> r[id] == m[id]))
      && (forall k :: 0 <= k < |vs| && (forall j :: k < j < |vs| ==> vs[j].id != vs[k].id) ==>
            vs[k].id in r && r[vs[k].id] == vs[k].initialValue)
  {
    if vs != [] {
      var init := vs[..|vs| - 1];
      OverlaySpec(m, init);
      assert forall k :: 0 <= k < |init| ==> init[k] == vs[k];
      forall k | 0 <= k < |vs| - 1 && (forall j :: k < j < |vs| ==> vs[j].id != vs[k].id)
        ensures forall j :: k < j < |init| ==> init[j].id != init[k].id
      {
      }
    }
  }

  /** Lines 103-109: the variable map a scene starts with. */
  function SceneVars(prior: NumVars, globals: seq<Variable>, scene: Scene, keepGlobals: bool): NumVars {
    Overlay(if keepGlobals then prior else Overlay(map[], globals), scene.variables)
  }

  /** Keeping globals, every earlier entry survives, and only the scene's
      own variables are reset to their initial values. */
  lemma KeepGlobalsSpec(prior: NumVars, globals: seq<Variable>, scene: Scene)
    ensures var r := SceneVars(prior, globals, scene, true);
      && prior.Keys <= r.Keys
      && (forall id :: id in prior && !Declares(scene.variables, id) ==> r[id] == prior[id])
      && (forall k :: 0 <= k < |scene.variables| ==> scene.variables[k].id in r)
  {
    OverlaySpec(prior, scene.variables);
  }

  /** Starting afresh, the map holds exactly the globals and the scene's
      variables, each at its initial value (the scene's win on a clash). */
  lemma FreshStartSpec(prior: NumVars, globals: seq<Variable>, scene: Scene)
    ensures var r := SceneVars(prior, globals, scene, false);
      && (forall id :: id in r <==> Declares(globals, id) || Declares(scene.variables, id))
      && (forall k ::
            (0 <= k < |globals| && (forall j :: k < j < |globals| ==> globals[j].id != globals[k].id)
             && !Declares(scene.variables, globals[k].id)) ==>
            r[globals[k].id] == globals[k].initialValue)
  {
    var g := Overlay(map[], globals);
    OverlaySpec(map[], globals);
    OverlaySpec(g, scene.variables);
    forall id ensures id in SceneVars(prior, globals, scene, false) <==> Declares(globals, id) || Declares(scene.variables, id) {
      if Declares(globals, id) {
        var k :| 0 <= k < |globals| && globals[k].id == id;
        assert id in g.Keys;
      }
      if Declares(scene.variables, id) {
        var k :| 0 <= k < |scene.variables| && scene.variables[k].id == id;
      }
    }
  }

  /** What loading the templates builds. */
  datatype Loaded = Loaded(instances: seq<RuntimeObject>, prefabs: map<Id, GameObject>, pools: Pools, nextId: nat)

  /** Lines 122-131 over the first `n` templates: a prefab goes to the
      registry (and fills its pool when it asks for one); any other template
      becomes a live object. */
  function LoadObjects(objs: seq<GameObject>, n: nat, start: Loaded): Loaded
    requires n <= |objs|
  {
    if n == 0 then start
    else
      var l := LoadObjects(objs, n - 1, start);
      var o := objs[n - 1];
      if o.isPrefab then
        if o.poolSize > 0 then
          var a := PreAllocated(l.pools, o, o.poolSize, CreateRuntimeObjectFromPrefab, l.nextId);
          Loaded(l.instances, l.prefabs[o.id := o], a.pools, a.nextId)
        else l.(prefabs := l.prefabs[o.id := o])
      else l.(instances := l.instances + [CreateRuntimeObjectFromPrefab(o, Fresh(l.nextId))], nextId := l.nextId + 1)
  }

  /** The templates that are not prefabs, in order. */
  function NonPrefabs(objs: seq<GameObject>): (r: seq<GameObject>)
    ensures forall o :: o in r ==> o in objs && !o.isPrefab
  {
    if objs == [] then []
    else
      var o := objs[|objs| - 1];
      var rest := NonPrefabs(objs[..|objs| - 1]);
      if o.isPrefab then rest else rest + [o]
  }

  /** Non-prefab templates become live objects, in order, each a fresh copy
      with an id newer than the counter it started from; prefabs go to the
      registry only, under their own id; the counter never goes back. */
  lemma {:induction false} LoadObjectsSpec(objs: seq<GameObject>, n: nat, start: Loaded)
    requires n <= |objs|
    ensures var l := LoadObjects(objs, n, start);
      var np := NonPrefabs(objs[..n]);
      && |l.instances| == |start.instances| + |np|
      && l.instances[..|start.instances|] == start.instances
      && (forall k :: 0 <= k < |np| ==>
            var inst := l.instances[|start.instances| + k];
            inst == CreateRuntimeObjectFromPrefab(np[k], inst.id)
            && inst.id.Fresh? && start.nextId <= inst.id.n < l.nextId)
      && (forall id :: id in l.prefabs && id !in start.prefabs ==>
            l.prefabs[id].isPrefab && l.prefabs[id].id == id && l.prefabs[id] in objs[..n])
      && start.nextId <= l.nextId
  {
    if n > 0 {
      LoadObjectsSpec(objs, n - 1, start);
      assert objs[..n][..n - 1] == objs[..n - 1];
      var l := LoadObjects(objs, n - 1, start);
      var o := objs[n - 1];
      if o.isPrefab && o.poolSize > 0 {
        var a := PreAllocated(l.pools, o, o.poolSize, CreateRuntimeObjectFromPrefab, l.nextId);
        assert l.nextId <= a.nextId;
      }
    }
  }
}
