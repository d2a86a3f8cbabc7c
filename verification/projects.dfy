/**
 * Starting a new one-scene project from a genre preset or from a saved
 * custom template (store.ts createProjectFromGenre and
 * createProjectFromCustomTemplate). Both hand out new ids for everything they
 * copy, and rewrite the rules' references through a lookup table built along
 * the way: variable names (and prefab names) for a genre preset, old variable
 * ids for a custom template.
 */
module Projects {
  import opened Wrappers
  import opened Types
  import opened Store

  // ---------------------------------------------------------------------
  // Lookup tables: a plain object filled by successive `table[key] = value`.
  // ---------------------------------------------------------------------

  /** One write `table[key] = value`. An empty key is not bound: every lookup
      in the source is guarded by the key's truthiness, so such a binding
      could never be read. */
  function Bind(t: map<Id, Id>, key: Id, value: Id): map<Id, Id> {
    if HasId(key) then t[key := value] else t
  }

  /** The table after writing the pairs in order. */
  function Table(ps: seq<(Id, Id)>): map<Id, Id> {
    if |ps| == 0 then map[] else Bind(Table(ps[..|ps| - 1]), ps[|ps| - 1].0, ps[|ps| - 1].1)
  }

  /** `if (ref && table[ref]) ref = table[ref]`. */
  function Remap(ref: Id, t: map<Id, Id>): (r: Id)
    ensures ref !in t ==> r == ref
    ensures ref in t && HasId(ref) && HasId(t[ref]) ==> r == t[ref]
  {
    if HasId(ref) && ref in t && HasId(t[ref]) then t[ref] else ref
  }

  /** A key is bound to the value of its last write. */
  lemma {:induction false} TableLastWrite(ps: seq<(Id, Id)>, j: nat)
    requires j < |ps| && HasId(ps[j].0)
    requires forall i :: j < i < |ps| ==> ps[i].0 != ps[j].0
    ensures ps[j].0 in Table(ps) && Table(ps)[ps[j].0] == ps[j].1
  {
    if j < |ps| - 1 {
      TableLastWrite(ps[..|ps| - 1], j);
    }
  }

  /** A key never written is not bound. */
  lemma {:induction false} TableUnwritten(ps: seq<(Id, Id)>, key: Id)
    requires forall i :: 0 <= i < |ps| ==> ps[i].0 != key
    ensures key !in Table(ps)
  {
    if |ps| > 0 {
      TableUnwritten(ps[..|ps| - 1], key);
    }
  }

  // ---------------------------------------------------------------------
  // Genre presets.
  // ---------------------------------------------------------------------

  /** A preset's `Partial<Variable>`; an absent scope is `None`. */
  datatype VariableDraft = VariableDraft(name: string, initialValue: real, scope: Option<VarScope>)

  /** A preset's `Partial<GameObject>`: absent strings are "", absent numbers
      0, absent flags false, an absent variable table is empty. */
  datatype ObjectDraft = ObjectDraft(
    name: string,
    otype: Option<ObjectType>,
    x: real, y: real, width: real, height: real,
    rotation: real,
    hasGravity: bool,
    hasCollision: bool,
    isPrefab: bool,
    variables: Vars,
    autoMove: Option<AutoMove>)

  /** A preset rule's partial condition; references are authored names. */
  datatype ConditionDraft = ConditionDraft(
    ctype: Option<ConditionType>,
    param: string,
    variableId: Id,
    variableName: string,
    value: Value,
    target: string,
    operator: string)

  /** A preset rule's partial action; references are authored names. */
  datatype ActionDraft = ActionDraft(
    atype: Option<ActionType>,
    target: Option<string>,
    param: real,
    variableId: Id,
    variableName: string,
    value: Value,
    animationName: string,
    sceneId: Id,
    prefabId: Id,
    offsetX: real,
    offsetY: real,
    cooldown: real)

  datatype EventDraft = EventDraft(condition: ConditionDraft, action: ActionDraft)

  datatype GenrePreset = GenrePreset(
    view: ViewType,
    gridSize: real,
    starterObjects: seq<ObjectDraft>,
    starterEvents: seq<EventDraft>,
    variables: seq<VariableDraft>)

  /** The preset's global variables, in order, with ids handed out from `start`. */
  function GlobalsOf(vs: seq<VariableDraft>, start: nat): (r: seq<Variable>)
    ensures |r| <= |vs|
    ensures forall k :: 0 <= k < |r| ==> r[k].id == Fresh(start + k) && r[k].scope == GlobalScope
  {
    if |vs| == 0 then []
    else
      var g := GlobalsOf(vs[..|vs| - 1], start);
      var v := vs[|vs| - 1];
      if v.scope == Some(GlobalScope) then g + [Variable(Fresh(start + |g|), v.name, v.initialValue, GlobalScope)]
      else g
  }

  /** Every global-scoped draft, and only those, becomes a global variable of
      the same name and starting value. */
  lemma {:induction false} GlobalsOfSpec(vs: seq<VariableDraft>, start: nat)
    ensures forall v :: v in GlobalsOf(vs, start) ==>
      VariableDraft(v.name, v.initialValue, Some(GlobalScope)) in vs
    ensures forall d :: d in vs && d.scope == Some(GlobalScope) ==>
      exists v :: v in GlobalsOf(vs, start) && v.name == d.name && v.initialValue == d.initialValue
  {
    if |vs| > 0 {
      var init := vs[..|vs| - 1];
      GlobalsOfSpec(init, start);
      assert vs == init + [vs[|vs| - 1]];
      var g := GlobalsOf(init, start);
      forall d | d in vs && d.scope == Some(GlobalScope)
        ensures exists v :: v in GlobalsOf(vs, start) && v.name == d.name && v.initialValue == d.initialValue
      {
        if d in init {
          var v :| v in g && v.name == d.name && v.initialValue == d.initialValue;
          assert v in GlobalsOf(vs, start);
        } else {
          assert d == vs[|vs| - 1];
          assert GlobalsOf(vs, start)[|g|].name == d.name;
        }
      }
    }
  }

  /** `varNameMap`: each global's name written with its id, in order. */
  function VarNamePairs(gs: seq<Variable>): (ps: seq<(Id, Id)>)
    ensures |ps| == |gs|
  {
    seq(|gs|, k requires 0 <= k < |gs| => (Named(gs[k].name), gs[k].id))
  }

  /** `objNameMap`: each named starter object's name written with its new id. */
  function ObjectNamePairs(ds: seq<ObjectDraft>, start: nat): (ps: seq<(Id, Id)>)
    ensures |ps| == |ds|
  {
    seq(|ds|, k requires 0 <= k < |ds| => (Named(ds[k].name), Fresh(start + k)))
  }

  /** A starter object with the preset's defaults filled in (`obj.x || 0`, ...,
      a missing auto-move being a disabled one of range 0). */
  function CompleteObject(d: ObjectDraft, id: Id): (o: GameObject)
    ensures o.id == id
    ensures o.name != "" && o.width != 0.0 && o.height != 0.0
    ensures d.name != "" ==> o.name == d.name
    ensures o.otype == d.otype.GetOr(Wall)
    ensures o.autoMove.Some? && (d.autoMove.None? ==> !o.autoMove.value.enabled)
  {
    GameObject(
      id,
      if d.name != "" then d.name else "Object",
      d.otype.GetOr(Wall),
      d.x, d.y,
      if d.width != 0.0 then d.width else 32.0,
      if d.height != 0.0 then d.height else 32.0,
      d.rotation,
      d.isPrefab, 0, 0.0,
      d.variables, [], None,
      d.hasCollision, d.hasGravity,
      Some(d.autoMove.GetOr(AutoMove(false, 0.0, 0.0, false, 0.0))))
  }

  /** A starter rule with its defaults filled in (WHEN always, THEN move
      Player) and its variable and prefab names resolved through the tables. */
  function CompleteEvent(d: EventDraft, varNames: map<Id, Id>, objNames: map<Id, Id>, id: Id): (e: GameEvent)
    ensures e.id == id
    ensures e.condition.variableId == Remap(d.condition.variableId, varNames)
    ensures e.action.variableId == Remap(d.action.variableId, varNames)
    ensures e.action.prefabId == Remap(d.action.prefabId, objNames)
    ensures e.condition.ctype == d.condition.ctype.GetOr(ALWAYS) && e.action.atype == d.action.atype.GetOr(MOVE_X)
  {
    var c := d.condition;
    var a := d.action;
    GameEvent(
      id,
      Condition(c.ctype.GetOr(ALWAYS), c.param, Remap(c.variableId, varNames), c.variableName, c.value, c.target, c.operator),
      Action(a.atype.GetOr(MOVE_X), a.target.GetOr("Player"), a.param, Remap(a.variableId, varNames),
             a.variableName, a.value, a.animationName, a.sceneId, Remap(a.prefabId, objNames),
             a.offsetX, a.offsetY, a.cooldown))
  }

  /** The starter objects with the preset's defaults, ids handed out from `start`. */
  function CompletedObjects(ds: seq<ObjectDraft>, start: nat): seq<GameObject> {
    seq(|ds|, k requires 0 <= k < |ds| => CompleteObject(ds[k], Fresh(start + k)))
  }

  /** The starter rules completed and resolved, ids handed out from `start`. */
  function CompletedEvents(es: seq<EventDraft>, varNames: map<Id, Id>, objNames: map<Id, Id>, start: nat): seq<GameEvent> {
    seq(|es|, k requires 0 <= k < |es| => CompleteEvent(es[k], varNames, objNames, Fresh(start + k)))
  }

  /** The project a genre preset produces, stated declaratively. Ids are
      handed out to the globals, then the objects, then the rules, then the
      scene, in the order the source calls `uuidv4()`. */
  function GenreProject(st: EditorState, preset: GenrePreset): EditorState {
    var g := GlobalsOf(preset.variables, st.nextId);
    var ds := preset.starterObjects;
    var es := preset.starterEvents;
    var o := st.nextId + |g|;
    var e := o + |ds|;
    var s := e + |es|;
    var varNames := Table(VarNamePairs(g));
    var objNames := Table(ObjectNamePairs(ds, o));
    st.(scenes := [Scene(Fresh(s), "Level 1", Some(preset.view), CompletedObjects(ds, o),
                         CompletedEvents(es, varNames, objNames, e), [])],
        currentSceneId := Fresh(s), variables := g, mode := EDIT, selectedObjectId := None,
        gridSize := preset.gridSize, nextId := s + 1)
  }

  /** `preset.variables.filter(global).map(...)`. */
  method CollectGlobals(vs: seq<VariableDraft>, start: nat) returns (globals: seq<Variable>)
    ensures globals == GlobalsOf(vs, start)
  {
    globals := [];
    var i := 0;
    while i < |vs|
      invariant i <= |vs|
      invariant globals == GlobalsOf(vs[..i], start)
    {
      var v := vs[i];
      if v.scope == Some(GlobalScope) {
        globals := globals + [Variable(Fresh(start + |globals|), v.name, v.initialValue, GlobalScope)];
      }
      assert vs[..i + 1][..i] == vs[..i];
      i := i + 1;
    }
    assert vs[..|vs|] == vs;
  }

  /** `globalVars.forEach(v => varNameMap[v.name] = v.id)`. */
  method NameGlobals(globals: seq<Variable>) returns (varNames: map<Id, Id>)
    ensures varNames == Table(VarNamePairs(globals))
  {
    varNames := map[];
    var i := 0;
    while i < |globals|
      invariant i <= |globals|
      invariant varNames == Table(VarNamePairs(globals)[..i])
    {
      varNames := Bind(varNames, Named(globals[i].name), globals[i].id);
      assert VarNamePairs(globals)[..i + 1][..i] == VarNamePairs(globals)[..i];
      i := i + 1;
    }
    assert VarNamePairs(globals)[..|globals|] == VarNamePairs(globals);
  }

  /** The starter-object pass: each object gets a new id, and a named one is
      recorded in `objNameMap` under its name. */
  method BuildStarterObjects(ds: seq<ObjectDraft>, start: nat) returns (objects: seq<GameObject>, objNames: map<Id, Id>)
    ensures objects == CompletedObjects(ds, start)
    ensures objNames == Table(ObjectNamePairs(ds, start))
  {
    objects := [];
    objNames := map[];
    var i := 0;
    while i < |ds|
      invariant i <= |ds|
      invariant objects == CompletedObjects(ds, start)[..i]
      invariant objNames == Table(ObjectNamePairs(ds, start)[..i])
    {
      var id := Fresh(start + i);
      ghost var ps := ObjectNamePairs(ds, start);
      assert ps[..i + 1][..i] == ps[..i] && ps[i] == (Named(ds[i].name), id);
      assert Table(ps[..i + 1]) == Bind(objNames, Named(ds[i].name), id);
      if ds[i].name != "" {
        objNames := objNames[Named(ds[i].name) := id];
      }
      assert CompletedObjects(ds, start)[..i + 1] == objects + [CompleteObject(ds[i], id)];
      objects := objects + [CompleteObject(ds[i], id)];
      i := i + 1;
    }
    assert ObjectNamePairs(ds, start)[..|ds|] == ObjectNamePairs(ds, start);
    assert CompletedObjects(ds, start)[..|ds|] == CompletedObjects(ds, start);
  }

  /** The starter-rule pass. */
  method BuildStarterEvents(es: seq<EventDraft>, varNames: map<Id, Id>, objNames: map<Id, Id>, start: nat)
    returns (events: seq<GameEvent>)
    ensures events == CompletedEvents(es, varNames, objNames, start)
  {
    events := [];
    var i := 0;
    while i < |es|
      invariant i <= |es| && |events| == i
      invariant forall k :: 0 <= k < i ==> events[k] == CompleteEvent(es[k], varNames, objNames, Fresh(start + k))
    {
      events := events + [CompleteEvent(es[i], varNames, objNames, Fresh(start + i))];
      i := i + 1;
    }
  }

  /** createProjectFromGenre, pass by pass as the source does it. */
  method CreateProjectFromGenre(st: EditorState, preset: GenrePreset) returns (r: EditorState)
    ensures r == GenreProject(st, preset)
  {
    var globals := CollectGlobals(preset.variables, st.nextId);
    var varNames := NameGlobals(globals);
    var o := st.nextId + |globals|;
    var objects, objNames := BuildStarterObjects(preset.starterObjects, o);
    var e := o + |preset.starterObjects|;
    var events := BuildStarterEvents(preset.starterEvents, varNames, objNames, e);
    var s := e + |preset.starterEvents|;
    r := st.(scenes := [Scene(Fresh(s), "Level 1", Some(preset.view), objects, events, [])],
             currentSceneId := Fresh(s), variables := globals, mode := EDIT, selectedObjectId := None,
             gridSize := preset.gridSize, nextId := s + 1);
  }

  /** A preset rule that refers to a global variable by name refers, in the
      new project, to that variable's new id (to the last global of that
      name, when several share it). */
  lemma GenreVariableRefsResolve(st: EditorState, preset: GenrePreset, k: nat, j: nat)
    requires k < |preset.starterEvents|
    requires var g := GlobalsOf(preset.variables, st.nextId);
      j < |g| && g[j].name != "" && (forall i :: j < i < |g| ==> g[i].name != g[j].name)
    ensures var r := GenreProject(st, preset);
      var ev := r.scenes[0].events[k];
      var d := preset.starterEvents[k];
      (d.condition.variableId == Named(r.variables[j].name) ==> ev.condition.variableId == r.variables[j].id) &&
      (d.action.variableId == Named(r.variables[j].name) ==> ev.action.variableId == r.variables[j].id)
  {
    var g := GlobalsOf(preset.variables, st.nextId);
    var ps := VarNamePairs(g);
    TableLastWrite(ps, j);
  }

  /** A preset rule's reference that names no global variable is left as written. */
  lemma GenreUnknownVariableRefsKept(st: EditorState, preset: GenrePreset, k: nat, name: string)
    requires k < |preset.starterEvents|
    requires forall v :: v in GlobalsOf(preset.variables, st.nextId) ==> v.name != name
    ensures var ev := GenreProject(st, preset).scenes[0].events[k];
      var d := preset.starterEvents[k];
      (d.condition.variableId == Named(name) ==> ev.condition.variableId == Named(name)) &&
      (d.action.variableId == Named(name) ==> ev.action.variableId == Named(name))
  {
    var g := GlobalsOf(preset.variables, st.nextId);
    var ps := VarNamePairs(g);
    assert forall i :: 0 <= i < |ps| ==> ps[i].0 == Named(g[i].name);
    TableUnwritten(ps, Named(name));
  }

  /** A CREATE_OBJECT rule naming a starter object spawns that object: its
      prefab reference becomes the object's new id. */
  lemma GenrePrefabRefsResolve(st: EditorState, preset: GenrePreset, k: nat, j: nat)
    requires k < |preset.starterEvents| && j < |preset.starterObjects|
    requires var ds := preset.starterObjects;
      ds[j].name != "" && (forall i :: j < i < |ds| ==> ds[i].name != ds[j].name)
    requires preset.starterEvents[k].action.prefabId == Named(preset.starterObjects[j].name)
    ensures var sc := GenreProject(st, preset).scenes[0];
      sc.events[k].action.prefabId == sc.objects[j].id
  {
    var g := GlobalsOf(preset.variables, st.nextId);
    TableLastWrite(ObjectNamePairs(preset.starterObjects, st.nextId + |g|), j);
  }

  /** The new project's variables, objects, rules and scene all have distinct
      ids, none handed out before. */
  lemma GenreIdsFresh(st: EditorState, preset: GenrePreset)
    ensures var r := GenreProject(st, preset);
      var sc := r.scenes[0];
      r.nextId > st.nextId &&
      (forall i, j :: 0 <= i < j < |r.variables| ==> r.variables[i].id != r.variables[j].id) &&
      (forall i, j :: 0 <= i < j < |sc.objects| ==> sc.objects[i].id != sc.objects[j].id) &&
      (forall i, j :: 0 <= i < j < |sc.events| ==> sc.events[i].id != sc.events[j].id) &&
      (forall i, j :: 0 <= i < |r.variables| && 0 <= j < |sc.objects| ==> r.variables[i].id != sc.objects[j].id) &&
      (forall i, j :: 0 <= i < |sc.objects| && 0 <= j < |sc.events| ==> sc.objects[i].id != sc.events[j].id) &&
      (forall i :: 0 <= i < |sc.events| ==> sc.events[i].id != sc.id) &&
      (forall i :: 0 <= i < |sc.objects| ==> sc.objects[i].id != sc.id) &&
      (forall i :: 0 <= i < |r.variables| ==> st.nextId <= r.variables[i].id.n < r.nextId)
  {
  }

  // ---------------------------------------------------------------------
  // Custom templates.
  // ---------------------------------------------------------------------

  /** A template saved from a scene. Its objects and rules are the complete
      records the editor saved. */
  datatype CustomTemplate = CustomTemplate(
    view: ViewType,
    gridSize: real,
    objects: seq<GameObject>,
    events: seq<GameEvent>,
    variables: seq<Variable>)

  /** `varIdMap`: each template variable's old id written with its new id. */
  function VarIdPairs(vs: seq<Variable>, start: nat): (ps: seq<(Id, Id)>)
    ensures |ps| == |vs|
  {
    seq(|vs|, k requires 0 <= k < |vs| => (vs[k].id, Fresh(start + k)))
  }

  /** A template rule under a new id, its variable references rewritten through the table. */
  function RemapEvent(e: GameEvent, varIds: map<Id, Id>, id: Id): (r: GameEvent)
    ensures r.id == id
    ensures r.condition == e.condition.(variableId := Remap(e.condition.variableId, varIds))
    ensures r.action == e.action.(variableId := Remap(e.action.variableId, varIds))
  {
    GameEvent(id,
      e.condition.(variableId := Remap(e.condition.variableId, varIds)),
      e.action.(variableId := Remap(e.action.variableId, varIds)))
  }

  /** The template's variables under ids handed out from `start`. */
  function RenumberedVariables(vs: seq<Variable>, start: nat): seq<Variable> {
    seq(|vs|, k requires 0 <= k < |vs| => vs[k].(id := Fresh(start + k)))
  }

  /** The template's objects under ids handed out from `start`. */
  function RenumberedObjects(os: seq<GameObject>, start: nat): seq<GameObject> {
    seq(|os|, k requires 0 <= k < |os| => os[k].(id := Fresh(start + k)))
  }

  /** The template's rules under ids handed out from `start`, references remapped. */
  function RemappedEvents(es: seq<GameEvent>, varIds: map<Id, Id>, start: nat): seq<GameEvent> {
    seq(|es|, k requires 0 <= k < |es| => RemapEvent(es[k], varIds, Fresh(start + k)))
  }

  /** The project a custom template produces, stated declaratively. */
  function TemplateProject(st: EditorState, t: CustomTemplate): EditorState {
    var n := st.nextId;
    var o := n + |t.variables|;
    var e := o + |t.objects|;
    var s := e + |t.events|;
    var varIds := Table(VarIdPairs(t.variables, n));
    st.(scenes := [Scene(Fresh(s), "Level 1", Some(t.view), RenumberedObjects(t.objects, o),
                         RemappedEvents(t.events, varIds, e), [])],
        currentSceneId := Fresh(s), variables := RenumberedVariables(t.variables, n), mode := EDIT,
        selectedObjectId := None, gridSize := t.gridSize, nextId := s + 1)
  }

  /** The variable pass: each copy gets a new id, recorded in `varIdMap` under the old one. */
  method CopyVariables(vs: seq<Variable>, start: nat) returns (variables: seq<Variable>, varIds: map<Id, Id>)
    ensures variables == RenumberedVariables(vs, start)
    ensures varIds == Table(VarIdPairs(vs, start))
  {
    variables := [];
    varIds := map[];
    var i := 0;
    while i < |vs|
      invariant i <= |vs| && |variables| == i
      invariant forall k :: 0 <= k < i ==> variables[k] == vs[k].(id := Fresh(start + k))
      invariant varIds == Table(VarIdPairs(vs, start)[..i])
    {
      var id := Fresh(start + i);
      varIds := Bind(varIds, vs[i].id, id);
      variables := variables + [vs[i].(id := id)];
      assert VarIdPairs(vs, start)[..i + 1][..i] == VarIdPairs(vs, start)[..i];
      i := i + 1;
    }
    assert VarIdPairs(vs, start)[..|vs|] == VarIdPairs(vs, start);
  }

  /** The object pass. */
  method CopyObjects(os: seq<GameObject>, start: nat) returns (objects: seq<GameObject>)
    ensures objects == RenumberedObjects(os, start)
  {
    objects := [];
    var i := 0;
    while i < |os|
      invariant i <= |os| && |objects| == i
      invariant forall k :: 0 <= k < i ==> objects[k] == os[k].(id := Fresh(start + k))
    {
      objects := objects + [os[i].(id := Fresh(start + i))];
      i := i + 1;
    }
  }

  /** The rule pass. */
  method CopyEvents(es: seq<GameEvent>, varIds: map<Id, Id>, start: nat) returns (events: seq<GameEvent>)
    ensures events == RemappedEvents(es, varIds, start)
  {
    events := [];
    var i := 0;
    while i < |es|
      invariant i <= |es| && |events| == i
      invariant forall k :: 0 <= k < i ==> events[k] == RemapEvent(es[k], varIds, Fresh(start + k))
    {
      events := events + [RemapEvent(es[i], varIds, Fresh(start + i))];
      i := i + 1;
    }
  }

  /** createProjectFromCustomTemplate, pass by pass as the source does it. */
  method CreateProjectFromCustomTemplate(st: EditorState, t: CustomTemplate) returns (r: EditorState)
    ensures r == TemplateProject(st, t)
  {
    var n := st.nextId;
    var variables, varIds := CopyVariables(t.variables, n);
    var o := n + |t.variables|;
    var objects := CopyObjects(t.objects, o);
    var e := o + |t.objects|;
    var events := CopyEvents(t.events, varIds, e);
    var s := e + |t.events|;
    r := st.(scenes := [Scene(Fresh(s), "Level 1", Some(t.view), objects, events, [])],
             currentSceneId := Fresh(s), variables := variables, mode := EDIT, selectedObjectId := None,
             gridSize := t.gridSize, nextId := s + 1);
  }

  /** A template rule that referred to the template's j-th variable refers to
      the new project's j-th variable: references follow the copy. */
  lemma TemplateRefsFollowVariables(st: EditorState, t: CustomTemplate, k: nat, j: nat)
    requires k < |t.events| && j < |t.variables|
    requires HasId(t.variables[j].id)
    requires forall i :: j < i < |t.variables| ==> t.variables[i].id != t.variables[j].id
    ensures var r := TemplateProject(st, t);
      var ev := r.scenes[0].events[k];
      (t.events[k].condition.variableId == t.variables[j].id ==> ev.condition.variableId == r.variables[j].id) &&
      (t.events[k].action.variableId == t.variables[j].id ==> ev.action.variableId == r.variables[j].id)
  {
    TableLastWrite(VarIdPairs(t.variables, st.nextId), j);
  }

  /** Object ids are not remapped: a rule's prefab reference is copied as it
      is, while every copied object gets a new id. A CREATE_OBJECT rule that
      named one of the template's objects (an id handed out before the copy)
      therefore names no object of the new project. */
  lemma TemplatePrefabRefsDangle(st: EditorState, t: CustomTemplate, k: nat)
    requires k < |t.events|
    requires t.events[k].action.prefabId.Fresh? ==> t.events[k].action.prefabId.n < st.nextId
    ensures var r := TemplateProject(st, t);
      var pid := r.scenes[0].events[k].action.prefabId;
      && pid == t.events[k].action.prefabId
      && forall i :: 0 <= i < |r.scenes[0].objects| ==> r.scenes[0].objects[i].id != pid
  {
  }

  /** A reference to no template variable (a scene variable, an instance
      variable, or none) is left untouched, and so is everything else in the
      rule except its id. */
  lemma TemplateOtherRefsKept(st: EditorState, t: CustomTemplate, k: nat)
    requires k < |t.events|
    ensures var ev := TemplateProject(st, t).scenes[0].events[k];
      var tev := t.events[k];
      ((forall v :: v in t.variables ==> v.id != tev.condition.variableId) ==> ev.condition == tev.condition) &&
      ((forall v :: v in t.variables ==> v.id != tev.action.variableId) ==> ev.action == tev.action)
  {
    var ps := VarIdPairs(t.variables, st.nextId);
    var ev := t.events[k];
    if forall v :: v in t.variables ==> v.id != ev.condition.variableId {
      assert forall i :: 0 <= i < |ps| ==> ps[i].0 == t.variables[i].id;
      TableUnwritten(ps, ev.condition.variableId);
    }
    if forall v :: v in t.variables ==> v.id != ev.action.variableId {
      assert forall i :: 0 <= i < |ps| ==> ps[i].0 == t.variables[i].id;
      TableUnwritten(ps, ev.action.variableId);
    }
  }
}
