/**
 * The authored data model of the game maker (types.ts): object templates,
 * variables, scenes and the WHEN/THEN rules, plus the identifiers the editor
 * and the runtime hand out.
 */
module Types {
  import opened Wrappers

  /** Identifiers. `Named` is an authored or imported id; `Fresh(n)` is the n-th
      id handed out by an id source (the model of `uuidv4()`). */
  datatype Id = Named(s: string) | Fresh(n: nat)

  /** The empty id: what JavaScript's truthiness tests treat as "no id". */
  const NoId: Id := Named("")

  predicate HasId(id: Id) { id != NoId }

  datatype ObjectType = Player | Enemy | Coin | Wall | Sprite | Tile

  /** The string the source compares rule targets and selectors against. */
  function TypeName(t: ObjectType): (s: string)
    ensures s != "" && s != "SELF" && s != "OTHER"
  {
    match t
    case Player => "Player"
    case Enemy => "Enemy"
    case Coin => "Coin"
    case Wall => "Wall"
    case Sprite => "Sprite"
    case Tile => "Tile"
  }

  datatype ViewType = SIDE | TOP_DOWN | ISO

  datatype ConditionType =
    KEY_PRESSED | COLLISION | ALWAYS | VAR_EQUALS | VAR_GT | VAR_LT | OBJ_VAR_COMPARE | MOUSE_CLICK

  datatype ActionType =
    | MOVE_X | MOVE_Y | JUMP | DESTROY | GRAVITY | REVERSE_X | REVERSE_Y
    | VAR_SET | VAR_ADD | VAR_SUB | OBJ_VAR_SET | OBJ_VAR_ADD | OBJ_VAR_SUB
    | SET_ANIMATION | GOTO_SCENE | PLAY_SOUND | CREATE_OBJECT

  /** A JavaScript value stored in an instance variable or a rule literal. */
  datatype Value = Undefined | Num(n: real) | Str(s: string) | Bool(b: bool)

  /** JavaScript falsiness of a value (NaN is not modelled). */
  predicate Falsy(v: Value) {
    v == Undefined || v == Num(0.0) || v == Str("") || v == Bool(false)
  }

  /** An instance-variable table: a plain JavaScript object, keys in insertion order. */
  type Vars = seq<(string, Value)>

  datatype AutoMove = AutoMove(enabled: bool, speedX: real, speedY: real, loop: bool, range: real)

  datatype Animation = Animation(id: Id, name: string, frameAssetIds: seq<Id>, fps: real, loop: bool)

  /** An authored object template (a `GameObject` of types.ts). Absent optional
      numbers are 0, absent flags false, an absent variable table is empty.
      Presentation-only fields (colour, image, tile, shadow) are not carried. */
  datatype GameObject = GameObject(
    id: Id,
    name: string,
    otype: ObjectType,
    x: real, y: real, width: real, height: real,
    rotation: real,
    isPrefab: bool,
    poolSize: int,
    spawnCooldown: real,
    variables: Vars,
    animations: seq<Animation>,
    currentAnimation: Option<string>,
    hasCollision: bool,
    hasGravity: bool,
    autoMove: Option<AutoMove>)

  datatype VarScope = GlobalScope | SceneScope

  datatype Variable = Variable(id: Id, name: string, initialValue: real, scope: VarScope)

  /** The WHEN part of a rule. Absent strings are "", an absent id is `NoId`,
      an absent literal is `Undefined`. */
  datatype Condition = Condition(
    ctype: ConditionType,
    param: string,
    variableId: Id,
    variableName: string,
    value: Value,
    target: string,
    operator: string)

  /** The THEN part of a rule; `param`, offsets and `cooldown` are 0 when absent. */
  datatype Action = Action(
    atype: ActionType,
    target: string,
    param: real,
    variableId: Id,
    variableName: string,
    value: Value,
    animationName: string,
    sceneId: Id,
    prefabId: Id,
    offsetX: real,
    offsetY: real,
    cooldown: real)

  datatype GameEvent = GameEvent(id: Id, condition: Condition, action: Action)

  datatype Scene = Scene(
    id: Id,
    name: string,
    view: Option<ViewType>,
    objects: seq<GameObject>,
    events: seq<GameEvent>,
    variables: seq<Variable>)

  /** `scenes.find(s => s.id === id)`: the first scene with that id. */
  function FindScene(scenes: seq<Scene>, id: Id): (r: Option<Scene>)
    ensures r.None? <==> forall i :: 0 <= i < |scenes| ==> scenes[i].id != id
    ensures r.Some? ==> r.value in scenes && r.value.id == id
    ensures |scenes| > 0 && scenes[0].id == id ==> r == Some(scenes[0])
  {
    if |scenes| == 0 then None
    else if scenes[0].id == id then Some(scenes[0])
    else FindScene(scenes[1..], id)
  }
  /** `find` returns the first match: the scene found sits at an index
      before which no scene has the id. */
  lemma {:induction false} FindSceneFirst(scenes: seq<Scene>, id: Id)
    ensures var r := FindScene(scenes, id);
      r.Some? ==> exists k :: 0 <= k < |scenes| && scenes[k] == r.value && forall j :: 0 <= j < k ==> scenes[j].id != id
  {
    if |scenes| > 0 && scenes[0].id != id {
      FindSceneFirst(scenes[1..], id);
      var r := FindScene(scenes, id);
      if r.Some? {
        var k :| 0 <= k < |scenes[1..]| && scenes[1..][k] == r.value && forall j :: 0 <= j < k ==> scenes[1..][j].id != id;
        assert scenes[k + 1] == r.value;
        assert forall j :: 0 <= j < k + 1 ==> scenes[j].id != id by {
          forall j | 0 <= j < k + 1 ensures scenes[j].id != id {
            if j > 0 { assert scenes[j] == scenes[1..][j - 1]; }
          }
        }
      }
    }
  }

}
