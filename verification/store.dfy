/**
 * The editor store (store.ts): the project being authored and the state
 * transformers the editor panels call. Each transformer maps the old store
 * state to the new one, as the store's `set(state => ...)` updaters do; an
 * updater that returns `state` leaves everything as it was.
 */
module Store {
  import opened Wrappers
  import opened Types
  import Text

  datatype Mode = EDIT | PLAY

  /** The part of the editor state the modelled transformers read or write.
      `variables` are the global variables; `nextId` is the id source that
      stands for `uuidv4()`. */
  datatype EditorState = EditorState(
    scenes: seq<Scene>,
    currentSceneId: Id,
    variables: seq<Variable>,
    selectedObjectId: Option<Id>,
    mode: Mode,
    gridSize: real,
    nextId: nat)

  function SceneId(s: Scene): Id { s.id }
  function ObjectId(o: GameObject): Id { o.id }
  function EventId(e: GameEvent): Id { e.id }
  function VariableId(v: Variable): Id { v.id }

  // ---------------------------------------------------------------------
  // The list idioms the updaters use: findIndex, filter and map-by-id.
  // ---------------------------------------------------------------------

  /** `list.findIndex(x => key(x) === id)`: -1 when no entry has the id. */
  function IndexOf<T>(s: seq<T>, key: T -> Id, id: Id): (i: int)
    ensures -1 <= i < |s|
    ensures i == -1 <==> forall k :: 0 <= k < |s| ==> key(s[k]) != id
    ensures 0 <= i ==> key(s[i]) == id && forall k :: 0 <= k < i ==> key(s[k]) != id
  {
    if |s| == 0 then -1
    else if key(s[0]) == id then 0
    else
      var j := IndexOf(s[1..], key, id);
      assert forall k :: 1 <= k < |s| ==> s[k] == s[1..][k - 1];
      if j == -1 then -1 else j + 1
  }

  /** `list.filter(x => key(x) !== id)`. */
  function Without<T(!new)>(s: seq<T>, key: T -> Id, id: Id): (r: seq<T>)
    ensures |r| <= |s|
    ensures forall x :: x in r <==> x in s && key(x) != id
    ensures |r| == |s| <==> forall k :: 0 <= k < |s| ==> key(s[k]) != id
    ensures (forall k :: 0 <= k < |s| ==> key(s[k]) != id) ==> r == s
  {
    if |s| == 0 then []
    else
      assert forall k :: 1 <= k < |s| ==> s[k] == s[1..][k - 1];
      assert s == [s[0]] + s[1..];
      if key(s[0]) == id then Without(s[1..], key, id)
      else [s[0]] + Without(s[1..], key, id)
  }

  /** `list.map(x => key(x) === id ? { ...x, ...updates } : x)`; the spread of
      the updates is the `patch`. */
  function Patched<T>(s: seq<T>, key: T -> Id, id: Id, patch: T -> T): (r: seq<T>)
    ensures |r| == |s|
    ensures forall k :: 0 <= k < |s| && key(s[k]) == id ==> r[k] == patch(s[k])
    ensures forall k :: 0 <= k < |s| && key(s[k]) != id ==> r[k] == s[k]
  {
    if |s| == 0 then []
    else
      assert forall k :: 1 <= k < |s| ==> s[k] == s[1..][k - 1];
      [if key(s[0]) == id then patch(s[0]) else s[0]] + Patched(s[1..], key, id, patch)
  }

  /** Filtering distributes over concatenation, so it keeps the order of what it keeps. */
  lemma {:induction false} WithoutConcat<T(!new)>(a: seq<T>, b: seq<T>, key: T -> Id, id: Id)
    ensures Without(a + b, key, id) == Without(a, key, id) + Without(b, key, id)
  {
    if |a| > 0 {
      assert (a + b)[0] == a[0];
      assert (a + b)[1..] == a[1..] + b;
      WithoutConcat(a[1..], b, key, id);
    } else {
      assert a + b == b;
    }
  }

  /** Filtering twice by the same id is filtering once. */
  lemma {:induction false} WithoutIdempotent<T(!new)>(s: seq<T>, key: T -> Id, id: Id)
    ensures Without(Without(s, key, id), key, id) == Without(s, key, id)
  {
    var r := Without(s, key, id);
    assert forall k :: 0 <= k < |r| ==> r[k] in r;
  }

  // ---------------------------------------------------------------------
  // The current scene.
  // ---------------------------------------------------------------------

  /** `scenes.findIndex(s => s.id === currentSceneId)`. */
  function CurrentIndex(st: EditorState): (i: int)
    ensures -1 <= i < |st.scenes|
    ensures i == -1 <==> forall k :: 0 <= k < |st.scenes| ==> st.scenes[k].id != st.currentSceneId
    ensures 0 <= i ==> st.scenes[i].id == st.currentSceneId
  {
    IndexOf(st.scenes, SceneId, st.currentSceneId)
  }

  predicate HasCurrentScene(st: EditorState) {
    CurrentIndex(st) >= 0
  }

  /** The updaters' common shape: find the current scene, give up (returning
      the state) when there is none, otherwise replace that one scene. */
  function EditCurrent(st: EditorState, edit: Scene -> Scene): (r: EditorState)
    ensures !HasCurrentScene(st) ==> r == st
    ensures |r.scenes| == |st.scenes|
    ensures r.(scenes := st.scenes) == st
    ensures HasCurrentScene(st) ==> r.scenes[CurrentIndex(st)] == edit(st.scenes[CurrentIndex(st)])
    ensures forall k :: 0 <= k < |st.scenes| && k != CurrentIndex(st) ==> r.scenes[k] == st.scenes[k]
  {
    var i := CurrentIndex(st);
    if i == -1 then st else st.(scenes := st.scenes[i := edit(st.scenes[i])])
  }

  // ---------------------------------------------------------------------
  // Scenes.
  // ---------------------------------------------------------------------

  /** `scenes.find(s => s.id === currentSceneId)?.view || 'SIDE'`. */
  function InheritedView(st: EditorState): (v: ViewType)
    ensures HasCurrentScene(st) && st.scenes[CurrentIndex(st)].view.Some? ==> v == st.scenes[CurrentIndex(st)].view.value
    ensures !HasCurrentScene(st) ==> v == SIDE
  {
    match FindScene(st.scenes, st.currentSceneId)
    case None => SIDE
    case Some(s) =>
      assert s == st.scenes[CurrentIndex(st)] by { FirstSceneFound(st.scenes, st.currentSceneId); }
      s.view.GetOr(SIDE)
  }

  lemma {:induction false} FirstSceneFound(scenes: seq<Scene>, id: Id)
    requires FindScene(scenes, id).Some?
    ensures FindScene(scenes, id).value == scenes[IndexOf(scenes, SceneId, id)]
  {
    if scenes[0].id != id {
      FirstSceneFound(scenes[1..], id);
    }
  }

  /** addScene: a new empty scene named after the new scene count, appended and made current. */
  function AddScene(st: EditorState): (r: EditorState)
    ensures |r.scenes| == |st.scenes| + 1 && r.scenes[..|st.scenes|] == st.scenes
    ensures r.scenes[|st.scenes|] ==
      Scene(Fresh(st.nextId), "Scene " + Text.Decimal(|st.scenes| + 1), Some(InheritedView(st)), [], [], [])
    ensures r.currentSceneId == Fresh(st.nextId)
    ensures r.(scenes := st.scenes, currentSceneId := st.currentSceneId, nextId := st.nextId) == st
    ensures r.nextId == st.nextId + 1
  {
    var scene := Scene(Fresh(st.nextId), "Scene " + Text.Decimal(|st.scenes| + 1), Some(InheritedView(st)), [], [], []);
    st.(scenes := st.scenes + [scene], currentSceneId := scene.id, nextId := st.nextId + 1)
  }

  /** deleteScene. With at most one scene nothing happens. Otherwise every scene
      with the id goes; when the current scene went, the first remaining scene
      becomes current. When that leaves no scene to read `newScenes[0].id`
      from, the updater throws and the state stays as it was. */
  function DeleteScene(st: EditorState, id: Id): (r: EditorState)
    ensures |st.scenes| <= 1 ==> r == st
    ensures r.(scenes := st.scenes, currentSceneId := st.currentSceneId) == st
    ensures |st.scenes| > 1 && r != st ==> r.scenes == Without(st.scenes, SceneId, id)
    ensures forall s :: s in r.scenes ==> s in st.scenes
    ensures r != st ==> forall s :: s in r.scenes ==> s.id != id
    ensures st.currentSceneId != id ==> r.currentSceneId == st.currentSceneId
    ensures st.currentSceneId == id && r != st ==> |r.scenes| > 0 && r.currentSceneId == r.scenes[0].id
  {
    if |st.scenes| <= 1 then st
    else
      var kept := Without(st.scenes, SceneId, id);
      if st.currentSceneId == id then
        if |kept| == 0 then st else st.(scenes := kept, currentSceneId := kept[0].id)
      else st.(scenes := kept)
  }

  /** updateScene: `{ ...s, ...updates }` on every scene with the id. */
  function UpdateScene(st: EditorState, id: Id, patch: Scene -> Scene): (r: EditorState)
    ensures |r.scenes| == |st.scenes|
    ensures forall k :: 0 <= k < |st.scenes| ==>
      r.scenes[k] == if st.scenes[k].id == id then patch(st.scenes[k]) else st.scenes[k]
    ensures r.(scenes := st.scenes) == st
  {
    st.(scenes := Patched(st.scenes, SceneId, id, patch))
  }

  /** Scene ids are pairwise distinct and none is a future id of the id source. */
  predicate WellFormedScenes(st: EditorState) {
    (forall i, j :: 0 <= i < j < |st.scenes| ==> st.scenes[i].id != st.scenes[j].id) &&
    (forall k :: 0 <= k < |st.scenes| && st.scenes[k].id.Fresh? ==> st.scenes[k].id.n < st.nextId)
  }

  lemma AddSceneKeepsWellFormed(st: EditorState)
    requires WellFormedScenes(st)
    ensures WellFormedScenes(AddScene(st)) && HasCurrentScene(AddScene(st))
  {
    var r := AddScene(st);
    assert r.scenes[|st.scenes|].id == r.currentSceneId;
  }

  /** Deleting a scene never loses the current scene: the editor always has
      one to show, and at least one scene remains. */
  lemma DeleteSceneKeepsCurrent(st: EditorState, id: Id)
    requires HasCurrentScene(st)
    ensures HasCurrentScene(DeleteScene(st, id)) && |DeleteScene(st, id).scenes| >= 1
  {
    var r := DeleteScene(st, id);
    var c := st.scenes[CurrentIndex(st)];
    if |st.scenes| > 1 && st.currentSceneId != id {
      assert c in r.scenes;
      var k :| 0 <= k < |r.scenes| && r.scenes[k] == c;
      assert r.scenes[k].id == r.currentSceneId;
    }
  }

  /** Deleting the scene just added gives back the earlier scene list. */
  lemma AddThenDeleteScene(st: EditorState)
    requires WellFormedScenes(st) && |st.scenes| >= 1
    ensures DeleteScene(AddScene(st), Fresh(st.nextId)).scenes == st.scenes
  {
    var a := AddScene(st);
    WithoutConcat(st.scenes, [a.scenes[|st.scenes|]], SceneId, Fresh(st.nextId));
    assert a.scenes == st.scenes + [a.scenes[|st.scenes|]];
  }

  // ---------------------------------------------------------------------
  // Objects of the current scene.
  // ---------------------------------------------------------------------

  /** `objects.filter(o => o.type === type).length`. */
  function CountOfType(objs: seq<GameObject>, t: ObjectType): (c: nat)
    ensures c <= |objs|
  {
    if |objs| == 0 then 0
    else CountOfType(objs[..|objs| - 1], t) + (if objs[|objs| - 1].otype == t then 1 else 0)
  }

  /** The default size of each object type: (width, height). */
  function DefaultSize(t: ObjectType): (real, real) {
    match t
    case Player => (32.0, 32.0)
    case Enemy => (32.0, 32.0)
    case Coin => (16.0, 16.0)
    case Wall => (96.0, 32.0)
    case Sprite => (64.0, 64.0)
    case Tile => (32.0, 32.0)
  }

  /** `GAME_VIEW_PRESETS[view].gravity`. */
  function PresetGravity(v: ViewType): bool { v == SIDE }

  /** `GAME_VIEW_PRESETS[view].defaultBehaviors.hasCollision`. */
  function PresetCollision(v: ViewType): bool { true }

  /** The object addObject builds before the caller's props are spread over it. */
  function NewObject(t: ObjectType, x: real, y: real, scene: Scene, n: nat): (o: GameObject)
    ensures o.id == Fresh(n) && o.otype == t && o.x == x && o.y == y
    ensures o.name == TypeName(t) + " " + Text.Decimal(CountOfType(scene.objects, t) + 1)
    ensures (o.width, o.height) == DefaultSize(t) && o.rotation == 0.0
    ensures t == Tile ==> !o.hasGravity && o.hasCollision
    ensures t != Tile ==> o.hasGravity == (scene.view.GetOr(SIDE) == SIDE) && o.hasCollision
    ensures o.autoMove == Some(AutoMove(false, 0.0, 0.0, false, 200.0))
    ensures !o.isPrefab && o.variables == [] && o.animations == [] && o.currentAnimation == None
  {
    var view := scene.view.GetOr(SIDE);
    var size := DefaultSize(t);
    GameObject(
      Fresh(n), TypeName(t) + " " + Text.Decimal(CountOfType(scene.objects, t) + 1), t,
      x, y, size.0, size.1, 0.0, false, 0, 0.0, [], [], None,
      t == Tile || PresetCollision(view),
      if t == Tile then false else PresetGravity(view),
      Some(AutoMove(false, 0.0, 0.0, false, 200.0)))
  }

  /** addObject: appends `{ ...defaults, ...props }` to the current scene and selects it. */
  function AddObject(st: EditorState, t: ObjectType, x: real, y: real, props: GameObject -> GameObject): (r: EditorState)
    ensures !HasCurrentScene(st) ==> r == st
    ensures HasCurrentScene(st) ==>
      var i := CurrentIndex(st);
      var o := props(NewObject(t, x, y, st.scenes[i], st.nextId));
      |r.scenes| == |st.scenes| &&
      r.scenes[i] == st.scenes[i].(objects := st.scenes[i].objects + [o]) &&
      (forall k :: 0 <= k < |st.scenes| && k != i ==> r.scenes[k] == st.scenes[k]) &&
      r.selectedObjectId == Some(o.id) && r.nextId == st.nextId + 1 &&
      r.(scenes := st.scenes, selectedObjectId := st.selectedObjectId, nextId := st.nextId) == st
  {
    var i := CurrentIndex(st);
    if i == -1 then st
    else
      var o := props(NewObject(t, x, y, st.scenes[i], st.nextId));
      var r := EditCurrent(st, (s: Scene) => s.(objects := s.objects + [o]));
      r.(selectedObjectId := Some(o.id), nextId := st.nextId + 1)
  }

  /** Adding an object of a type numbers it one past the objects of that type
      already in the scene. */
  lemma {:induction false} AddObjectCountsType(objs: seq<GameObject>, o: GameObject, t: ObjectType)
    ensures CountOfType(objs + [o], t) == CountOfType(objs, t) + (if o.otype == t then 1 else 0)
  {
    assert (objs + [o])[..|objs|] == objs;
  }

  /** updateObject: only the objects with the id change, in place. */
  function UpdateObject(st: EditorState, id: Id, patch: GameObject -> GameObject): (r: EditorState)
    ensures !HasCurrentScene(st) ==> r == st
    ensures r.(scenes := st.scenes) == st && |r.scenes| == |st.scenes|
    ensures forall k :: 0 <= k < |st.scenes| && k != CurrentIndex(st) ==> r.scenes[k] == st.scenes[k]
    ensures HasCurrentScene(st) ==>
      var i := CurrentIndex(st);
      var before := st.scenes[i].objects;
      var after := r.scenes[i].objects;
      r.scenes[i] == st.scenes[i].(objects := after) && |after| == |before| &&
      (forall k :: 0 <= k < |before| ==> after[k] == if before[k].id == id then patch(before[k]) else before[k])
  {
    EditCurrent(st, (s: Scene) => s.(objects := Patched(s.objects, ObjectId, id, patch)))
  }

  /** deleteObject: removes the objects with the id from the current scene and
      clears the selection only when it pointed at that id. */
  function DeleteObject(st: EditorState, id: Id): (r: EditorState)
    ensures !HasCurrentScene(st) ==> r == st
    ensures r.(scenes := st.scenes, selectedObjectId := st.selectedObjectId) == st && |r.scenes| == |st.scenes|
    ensures forall k :: 0 <= k < |st.scenes| && k != CurrentIndex(st) ==> r.scenes[k] == st.scenes[k]
    ensures HasCurrentScene(st) ==>
      var i := CurrentIndex(st);
      r.scenes[i] == st.scenes[i].(objects := r.scenes[i].objects) &&
      (forall o :: o in r.scenes[i].objects <==> o in st.scenes[i].objects && o.id != id) &&
      r.selectedObjectId == (if st.selectedObjectId == Some(id) then None else st.selectedObjectId)
  {
    var i := CurrentIndex(st);
    if i == -1 then st
    else
      var r := EditCurrent(st, (s: Scene) => s.(objects := Without(s.objects, ObjectId, id)));
      r.(selectedObjectId := if st.selectedObjectId == Some(id) then None else st.selectedObjectId)
  }

  /** Deleting an object twice is deleting it once. */
  lemma DeleteObjectIdempotent(st: EditorState, id: Id)
    ensures DeleteObject(DeleteObject(st, id), id) == DeleteObject(st, id)
  {
    var r := DeleteObject(st, id);
    if HasCurrentScene(st) {
      var i := CurrentIndex(st);
      assert CurrentIndex(r) == i by {
        assert r.scenes[..i] == st.scenes[..i];
      }
      WithoutIdempotent(st.scenes[i].objects, ObjectId, id);
    }
  }

  /** Deleting the object just added (with no props) gives back the scene's
      object list and leaves nothing selected. */
  lemma AddThenDeleteObject(st: EditorState, t: ObjectType, x: real, y: real)
    requires HasCurrentScene(st)
    requires forall k :: 0 <= k < |st.scenes[CurrentIndex(st)].objects| ==> st.scenes[CurrentIndex(st)].objects[k].id != Fresh(st.nextId)
    ensures
      var r := DeleteObject(AddObject(st, t, x, y, (o: GameObject) => o), Fresh(st.nextId));
      r.scenes == st.scenes && r.selectedObjectId == None
  {
    var i := CurrentIndex(st);
    var a := AddObject(st, t, x, y, (o: GameObject) => o);
    var o := NewObject(t, x, y, st.scenes[i], st.nextId);
    assert CurrentIndex(a) == i by {
      assert a.scenes[..i] == st.scenes[..i];
    }
    var objs := st.scenes[i].objects;
    assert a.scenes[i].objects == objs + [o];
    WithoutConcat(objs, [o], ObjectId, o.id);
    assert Without([o], ObjectId, o.id) == [];
    var r := EditCurrent(a, (s: Scene) => s.(objects := Without(s.objects, ObjectId, o.id)));
    assert r.scenes[i].objects == objs;
    assert r.scenes[i] == st.scenes[i];
    assert r.scenes == st.scenes;
  }

  // ---------------------------------------------------------------------
  // Events of the current scene.
  // ---------------------------------------------------------------------

  /** The rule addEvent creates: WHEN always THEN move Player by 0 along x. */
  function DefaultEvent(id: Id): GameEvent {
    GameEvent(id,
      Condition(ALWAYS, "", NoId, "", Undefined, "", ""),
      Action(MOVE_X, "Player", 0.0, NoId, "", Undefined, "", NoId, NoId, 0.0, 0.0, 0.0))
  }

  /** addEvent: appends the default rule to the current scene. */
  function AddEvent(st: EditorState): (r: EditorState)
    ensures !HasCurrentScene(st) ==> r == st
    ensures r.(scenes := st.scenes, nextId := st.nextId) == st && |r.scenes| == |st.scenes|
    ensures forall k :: 0 <= k < |st.scenes| && k != CurrentIndex(st) ==> r.scenes[k] == st.scenes[k]
    ensures HasCurrentScene(st) ==>
      var i := CurrentIndex(st);
      r.scenes[i] == st.scenes[i].(events := st.scenes[i].events + [DefaultEvent(Fresh(st.nextId))]) &&
      r.nextId == st.nextId + 1
  {
    if !HasCurrentScene(st) then st
    else
      var e := DefaultEvent(Fresh(st.nextId));
      EditCurrent(st, (s: Scene) => s.(events := s.events + [e])).(nextId := st.nextId + 1)
  }

  /** `events.splice(j + 1, 0, copy)`. */
  function InsertAfter(events: seq<GameEvent>, j: nat, e: GameEvent): (r: seq<GameEvent>)
    requires j < |events|
    ensures |r| == |events| + 1 && r[j + 1] == e
    ensures r[..j + 1] == events[..j + 1] && r[j + 2..] == events[j + 1..]
  {
    events[..j + 1] + [e] + events[j + 1..]
  }

  /** duplicateEvent: a copy of the first rule with the id, under a new id,
      placed right after it. An unknown id changes nothing. */
  function DuplicateEvent(st: EditorState, id: Id): (r: EditorState)
    ensures !HasCurrentScene(st) ==> r == st
    ensures HasCurrentScene(st) && IndexOf(st.scenes[CurrentIndex(st)].events, EventId, id) == -1 ==> r == st
    ensures r.(scenes := st.scenes, nextId := st.nextId) == st && |r.scenes| == |st.scenes|
    ensures forall k :: 0 <= k < |st.scenes| && k != CurrentIndex(st) ==> r.scenes[k] == st.scenes[k]
    ensures HasCurrentScene(st) && IndexOf(st.scenes[CurrentIndex(st)].events, EventId, id) >= 0 ==>
      var i := CurrentIndex(st);
      var before := st.scenes[i].events;
      var j := IndexOf(before, EventId, id);
      var after := r.scenes[i].events;
      r.scenes[i] == st.scenes[i].(events := after) &&
      |after| == |before| + 1 &&
      after[..j + 1] == before[..j + 1] &&
      after[j + 1] == before[j].(id := Fresh(st.nextId)) &&
      after[j + 2..] == before[j + 1..] &&
      r.nextId == st.nextId + 1
  {
    if !HasCurrentScene(st) then st
    else
      var i := CurrentIndex(st);
      var events := st.scenes[i].events;
      var j := IndexOf(events, EventId, id);
      if j == -1 then st
      else
        var copy := events[j].(id := Fresh(st.nextId));
        st.(scenes := st.scenes[i := st.scenes[i].(events := InsertAfter(events, j, copy))], nextId := st.nextId + 1)
  }

  /** Removing an inserted rule whose id no other rule has gives back the list. */
  lemma InsertThenRemove(events: seq<GameEvent>, j: nat, e: GameEvent)
    requires j < |events|
    requires forall x :: x in events ==> x.id != e.id
    ensures Without(InsertAfter(events, j, e), EventId, e.id) == events
  {
    var a, b := events[..j + 1], events[j + 1..];
    assert a + b == events;
    assert InsertAfter(events, j, e) == a + ([e] + b);
    assert forall k :: 0 <= k < |a| ==> EventId(a[k]) != e.id by {
      assert forall k :: 0 <= k < |a| ==> a[k] == events[k];
    }
    assert forall k :: 0 <= k < |b| ==> EventId(b[k]) != e.id by {
      assert forall k :: 0 <= k < |b| ==> b[k] == events[j + 1 + k];
    }
    WithoutConcat(a, [e] + b, EventId, e.id);
    WithoutConcat([e], b, EventId, e.id);
  }

  /** Deleting the copy duplicateEvent made gives back the scene's rule list. */
  lemma DuplicateThenDeleteCopy(st: EditorState, id: Id)
    requires HasCurrentScene(st)
    requires forall e :: e in st.scenes[CurrentIndex(st)].events ==> e.id != Fresh(st.nextId)
    ensures DeleteEvent(DuplicateEvent(st, id), Fresh(st.nextId)).scenes == st.scenes
  {
    var i := CurrentIndex(st);
    var d := DuplicateEvent(st, id);
    assert CurrentIndex(d) == i by {
      assert d.scenes[..i] == st.scenes[..i];
    }
    var events := st.scenes[i].events;
    var j := IndexOf(events, EventId, id);
    if j >= 0 {
      InsertThenRemove(events, j, events[j].(id := Fresh(st.nextId)));
      var r := DeleteEvent(d, Fresh(st.nextId));
      assert r.scenes[i] == st.scenes[i];
      assert r.scenes == st.scenes;
    }
  }

  /** updateEvent: only the rules with the id change, in place. */
  function UpdateEvent(st: EditorState, id: Id, patch: GameEvent -> GameEvent): (r: EditorState)
    ensures !HasCurrentScene(st) ==> r == st
    ensures r.(scenes := st.scenes) == st && |r.scenes| == |st.scenes|
    ensures forall k :: 0 <= k < |st.scenes| && k != CurrentIndex(st) ==> r.scenes[k] == st.scenes[k]
    ensures HasCurrentScene(st) ==>
      var i := CurrentIndex(st);
      var before := st.scenes[i].events;
      var after := r.scenes[i].events;
      r.scenes[i] == st.scenes[i].(events := after) && |after| == |before| &&
      (forall k :: 0 <= k < |before| ==> after[k] == if before[k].id == id then patch(before[k]) else before[k])
  {
    EditCurrent(st, (s: Scene) => s.(events := Patched(s.events, EventId, id, patch)))
  }

  /** deleteEvent: removes the rules with the id from the current scene. */
  function DeleteEvent(st: EditorState, id: Id): (r: EditorState)
    ensures !HasCurrentScene(st) ==> r == st
    ensures r.(scenes := st.scenes) == st && |r.scenes| == |st.scenes|
    ensures forall k :: 0 <= k < |st.scenes| && k != CurrentIndex(st) ==> r.scenes[k] == st.scenes[k]
    ensures HasCurrentScene(st) ==>
      var i := CurrentIndex(st);
      r.scenes[i] == st.scenes[i].(events := r.scenes[i].events) &&
      (forall e :: e in r.scenes[i].events <==> e in st.scenes[i].events && e.id != id)
  {
    EditCurrent(st, (s: Scene) => s.(events := Without(s.events, EventId, id)))
  }

  // ---------------------------------------------------------------------
  // Variables: global ones in the state, scene ones in the current scene.
  // ---------------------------------------------------------------------

  /** addVariable: a variable named 'NewVariable' starting at 0, appended to
      the global list or to the current scene's list. */
  function AddVariable(st: EditorState, scope: VarScope): (r: EditorState)
    ensures var v := Variable(Fresh(st.nextId), "NewVariable", 0.0, scope);
      if scope == GlobalScope then
        r == st.(variables := st.variables + [v], nextId := st.nextId + 1)
      else if !HasCurrentScene(st) then r == st
      else
        var i := CurrentIndex(st);
        r.(scenes := st.scenes, nextId := st.nextId) == st && r.nextId == st.nextId + 1 &&
        r.scenes == st.scenes[i := st.scenes[i].(variables := st.scenes[i].variables + [v])]
  {
    var v := Variable(Fresh(st.nextId), "NewVariable", 0.0, scope);
    if scope == GlobalScope then st.(variables := st.variables + [v], nextId := st.nextId + 1)
    else if !HasCurrentScene(st) then st
    else EditCurrent(st, (s: Scene) => s.(variables := s.variables + [v])).(nextId := st.nextId + 1)
  }

  predicate IsGlobal(st: EditorState, id: Id) {
    exists v :: v in st.variables && v.id == id
  }

  /** updateVariable: a global id patches the global list and nothing else;
      any other id patches the current scene's list and nothing else. */
  function UpdateVariable(st: EditorState, id: Id, patch: Variable -> Variable): (r: EditorState)
    ensures IsGlobal(st, id) ==>
      r.(variables := st.variables) == st && |r.variables| == |st.variables| &&
      forall k :: 0 <= k < |st.variables| ==>
        r.variables[k] == if st.variables[k].id == id then patch(st.variables[k]) else st.variables[k]
    ensures !IsGlobal(st, id) ==>
      r.(scenes := st.scenes) == st && |r.scenes| == |st.scenes| &&
      (forall k :: 0 <= k < |st.scenes| && k != CurrentIndex(st) ==> r.scenes[k] == st.scenes[k]) &&
      (HasCurrentScene(st) ==>
        var i := CurrentIndex(st);
        r.scenes[i] == st.scenes[i].(variables := Patched(st.scenes[i].variables, VariableId, id, patch)))
  {
    if exists v :: v in st.variables && v.id == id then
      st.(variables := Patched(st.variables, VariableId, id, patch))
    else
      EditCurrent(st, (s: Scene) => s.(variables := Patched(s.variables, VariableId, id, patch)))
  }

  /** deleteVariable: removes a global id from the global list; an id that is
      not global is removed from the current scene's list. */
  function DeleteVariable(st: EditorState, id: Id): (r: EditorState)
    ensures IsGlobal(st, id) ==>
      r.(variables := st.variables) == st &&
      (forall v :: v in r.variables <==> v in st.variables && v.id != id) && |r.variables| < |st.variables|
    ensures !IsGlobal(st, id) ==>
      r.(scenes := st.scenes) == st && |r.scenes| == |st.scenes| &&
      (forall k :: 0 <= k < |st.scenes| && k != CurrentIndex(st) ==> r.scenes[k] == st.scenes[k]) &&
      (HasCurrentScene(st) ==>
        var i := CurrentIndex(st);
        r.scenes[i] == st.scenes[i].(variables := r.scenes[i].variables) &&
        (forall v :: v in r.scenes[i].variables <==> v in st.scenes[i].variables && v.id != id))
  {
    var globals := Without(st.variables, VariableId, id);
    if |globals| != |st.variables| then st.(variables := globals)
    else EditCurrent(st, (s: Scene) => s.(variables := Without(s.variables, VariableId, id)))
  }

  /** Deleting the global variable just added gives back the global list. */
  lemma AddThenDeleteGlobal(st: EditorState)
    requires forall v :: v in st.variables ==> v.id != Fresh(st.nextId)
    ensures DeleteVariable(AddVariable(st, GlobalScope), Fresh(st.nextId)).variables == st.variables
  {
    var a := AddVariable(st, GlobalScope);
    var v := a.variables[|st.variables|];
    assert a.variables == st.variables + [v];
    WithoutConcat(st.variables, [v], VariableId, v.id);
    assert Without(st.variables, VariableId, v.id) == st.variables by {
      assert forall k :: 0 <= k < |st.variables| ==> st.variables[k] in st.variables;
    }
    assert v in a.variables;
  }

  // ---------------------------------------------------------------------
  // Loading a saved project.
  // ---------------------------------------------------------------------

  /** What loadProject receives: a saved project, or an older single-scene
      one with top-level objects and events. */
  datatype ProjectData = ProjectData(
    scenes: Option<seq<Scene>>,
    objects: Option<seq<GameObject>>,
    events: Option<seq<GameEvent>>,
    variables: Option<seq<Variable>>)

  /** loadProject. `None` when the data has neither scenes nor objects: the
      store's scene list then becomes undefined, which `EditorState` does not
      represent. An empty scene list makes `loadedScenes[0].id` throw, and the
      state stays as it was. Otherwise the scenes (or the migrated single
      scene) are loaded, the first becomes current, and the editor returns to
      edit mode with nothing selected. */
  function LoadProject(st: EditorState, data: ProjectData): (r: Option<EditorState>)
    ensures r.None? <==> data.scenes.None? && data.objects.None?
    ensures data.scenes == Some([]) ==> r == Some(st)
    ensures data.scenes.Some? && data.scenes.value != [] ==>
      r == Some(st.(scenes := data.scenes.value, currentSceneId := data.scenes.value[0].id,
                    variables := data.variables.GetOr([]), mode := EDIT, selectedObjectId := None))
    ensures data.scenes.None? && data.objects.Some? ==>
      r.Some? && |r.value.scenes| == 1 &&
      r.value.scenes[0] == Scene(Fresh(st.nextId), "Scene 1", None, data.objects.value, data.events.GetOr([]), []) &&
      r.value.currentSceneId == Fresh(st.nextId) && r.value.nextId == st.nextId + 1 &&
      r.value.variables == data.variables.GetOr([]) && r.value.mode == EDIT && r.value.selectedObjectId == None
    ensures r.Some? ==> r.value.gridSize == st.gridSize
  {
    var migrated :=
      if data.scenes.None? && data.objects.Some? then
        Some([Scene(Fresh(st.nextId), "Scene 1", None, data.objects.value, data.events.GetOr([]), [])])
      else data.scenes;
    var nextId := if data.scenes.None? && data.objects.Some? then st.nextId + 1 else st.nextId;
    match migrated
    case None => None
    case Some(scenes) =>
      if |scenes| == 0 then Some(st)
      else Some(st.(scenes := scenes, currentSceneId := scenes[0].id, variables := data.variables.GetOr([]),
                    mode := EDIT, selectedObjectId := None, nextId := nextId))
  }

  /** A successful load always leaves a current scene to edit. */
  lemma LoadProjectHasCurrentScene(st: EditorState, data: ProjectData)
    requires data.scenes.Some? || data.objects.Some?
    requires data.scenes != Some([])
    ensures HasCurrentScene(LoadProject(st, data).value)
  {
    var r := LoadProject(st, data).value;
    assert r.scenes[0].id == r.currentSceneId;
  }
}
