/**
 * The prompt-driven template builder (utils/aiGenerator.ts): substring tests
 * on the lower-cased prompt choose a view and decide which objects, rules and
 * global variables a new custom template starts with.
 */
module AiGenerator {
  import opened Wrappers
  import opened Types
  import Text
  import JsRecord
  import Projects

  // ---------------------------------------------------------------------
  // Keyword tests on the lower-cased prompt.
  // ---------------------------------------------------------------------

  predicate TopDownWords(p: string) {
    Text.Contains(p, "top down") || Text.Contains(p, "rpg") || Text.Contains(p, "racing") || Text.Contains(p, "car")
  }

  predicate IsoWords(p: string) {
    Text.Contains(p, "iso") || Text.Contains(p, "2.5d")
  }

  predicate HealthWords(p: string) {
    Text.Contains(p, "hp") || Text.Contains(p, "health") || Text.Contains(p, "life") || Text.Contains(p, "lives")
  }

  predicate ScoreWords(p: string) {
    Text.Contains(p, "score") || Text.Contains(p, "coin") || Text.Contains(p, "collect")
  }

  predicate EnemyWords(p: string) {
    Text.Contains(p, "enemy") || Text.Contains(p, "enemies") || Text.Contains(p, "zombie") || Text.Contains(p, "monster")
  }

  predicate CoinWords(p: string) {
    Text.Contains(p, "coin") || Text.Contains(p, "collect")
  }

  /** The view a prompt asks for: top-down words win over isometric ones, and
      a prompt with neither is a side-scroller. */
  function ViewOf(p: string): (v: ViewType)
    ensures v == TOP_DOWN <==> TopDownWords(p)
    ensures v == ISO <==> !TopDownWords(p) && IsoWords(p)
    ensures v == SIDE <==> !TopDownWords(p) && !IsoWords(p)
  {
    if TopDownWords(p) then TOP_DOWN else if IsoWords(p) then ISO else SIDE
  }

  // ---------------------------------------------------------------------
  // The pieces the builder pushes.
  // ---------------------------------------------------------------------

  /** What a generated rule says, without its id. */
  datatype RuleShape = RuleShape(
    ctype: ConditionType, cparam: string, ctarget: string,
    atype: ActionType, atarget: string, param: real,
    variableId: Id, variableName: string, value: Value)

  function ShapeOf(e: GameEvent): RuleShape {
    RuleShape(e.condition.ctype, e.condition.param, e.condition.target,
              e.action.atype, e.action.target, e.action.param,
              e.action.variableId, e.action.variableName, e.action.value)
  }

  function Rule(id: Id, s: RuleShape): (e: GameEvent)
    ensures e.id == id && ShapeOf(e) == s
  {
    GameEvent(id,
      Condition(s.ctype, s.cparam, NoId, "", Undefined, s.ctarget, ""),
      Action(s.atype, s.atarget, s.param, s.variableId, s.variableName, s.value, "", NoId, NoId, 0.0, 0.0, 0.0))
  }

  function Simple(c: ConditionType, cparam: string, a: ActionType, param: real): RuleShape {
    RuleShape(c, cparam, "", a, "Player", param, NoId, "", Undefined)
  }

  /** Gravity, walking right and left, and jumping. */
  const SideMoves: seq<RuleShape> := [
    Simple(ALWAYS, "", GRAVITY, 0.5),
    Simple(KEY_PRESSED, "ArrowRight", MOVE_X, 5.0),
    Simple(KEY_PRESSED, "ArrowLeft", MOVE_X, -5.0),
    Simple(KEY_PRESSED, "Space", JUMP, -12.0)]

  /** Moving in the four directions. */
  const TopDownMoves: seq<RuleShape> := [
    Simple(KEY_PRESSED, "ArrowRight", MOVE_X, 5.0),
    Simple(KEY_PRESSED, "ArrowLeft", MOVE_X, -5.0),
    Simple(KEY_PRESSED, "ArrowUp", MOVE_Y, -5.0),
    Simple(KEY_PRESSED, "ArrowDown", MOVE_Y, 5.0)]

  const EnemyHitsHp: RuleShape := RuleShape(COLLISION, "Enemy", "Player", OBJ_VAR_SUB, "Player", 0.0, NoId, "hp", Num(10.0))
  const EnemyKills: RuleShape := RuleShape(COLLISION, "Enemy", "Player", DESTROY, "Player", 0.0, NoId, "", Undefined)

  function CoinScores(scoreId: Id): RuleShape {
    RuleShape(COLLISION, "Coin", "Player", VAR_ADD, "SELF", 0.0, scoreId, "", Num(10.0))
  }

  const CoinTaken: RuleShape := RuleShape(COLLISION, "Coin", "Player", DESTROY, "OTHER", 0.0, NoId, "", Undefined)

  /** A generated object; the fields the builder leaves out are absent. */
  function Piece(id: Id, name: string, t: ObjectType, x: real, y: real, w: real, h: real,
                 collision: bool, gravity: bool, vars: Vars, autoMove: Option<AutoMove>): GameObject {
    GameObject(id, name, t, x, y, w, h, 0.0, false, 0, 0.0, vars, [], None, collision, gravity, autoMove)
  }

  function PlayerObject(id: Id, view: ViewType, vars: Vars): GameObject {
    Piece(id, "Player", Player, 100.0, 200.0, 32.0, 32.0, true, view == SIDE, vars, None)
  }

  function GroundObject(id: Id): GameObject {
    Piece(id, "Ground", Wall, 0.0, 400.0, 800.0, 40.0, true, false, [], None)
  }

  function EnemyObject(id: Id, view: ViewType): GameObject {
    Piece(id, "Enemy", Enemy, 400.0, if view == SIDE then 368.0 else 100.0, 32.0, 32.0, true, view == SIDE, [],
          Some(AutoMove(true, 2.0, 0.0, true, 150.0)))
  }

  function CoinObject(id: Id, view: ViewType): GameObject {
    Piece(id, "Coin", Coin, 300.0, if view == SIDE then 300.0 else 200.0, 20.0, 20.0, false, false, [], None)
  }

  /** `variables.find(v => v.name === name)`. */
  function FindVariable(vs: seq<Variable>, name: string): (r: Option<Variable>)
    ensures r.Some? ==> r.value in vs && r.value.name == name
    ensures r.None? ==> forall v :: v in vs ==> v.name != name
  {
    if |vs| == 0 then None else if vs[0].name == name then Some(vs[0]) else FindVariable(vs[1..], name)
  }
  /** `find` returns the first match: the variable found sits at an index
      before which no variable has the name. */
  lemma {:induction false} FindVariableFirst(vs: seq<Variable>, name: string)
    ensures var r := FindVariable(vs, name);
      r.Some? ==> exists k :: 0 <= k < |vs| && vs[k] == r.value && forall j :: 0 <= j < k ==> vs[j].name != name
  {
    if |vs| > 0 && vs[0].name != name {
      FindVariableFirst(vs[1..], name);
      var r := FindVariable(vs, name);
      if r.Some? {
        var k :| 0 <= k < |vs[1..]| && vs[1..][k] == r.value && forall j :: 0 <= j < k ==> vs[1..][j].name != name;
        assert vs[k + 1] == r.value;
        assert forall j :: 0 <= j < k + 1 ==> vs[j].name != name by {
          forall j | 0 <= j < k + 1 ensures vs[j].name != name {
            if j > 0 { assert vs[j] == vs[1..][j - 1]; }
          }
        }
      }
    }
  }


  // ---------------------------------------------------------------------
  // The template, stated declaratively, phase by phase.
  // ---------------------------------------------------------------------

  /** The lists being assembled and the next id to hand out. */
  datatype Build = Build(objects: seq<GameObject>, events: seq<GameEvent>, variables: seq<Variable>, next: nat)

  datatype Generated = Generated(template: Projects.CustomTemplate, nextId: nat)

  /** The rules at ids `n`, `n + 1`, ... */
  function Rules(shapes: seq<RuleShape>, n: nat): (es: seq<GameEvent>)
    ensures |es| == |shapes|
    ensures forall k :: 0 <= k < |es| ==> es[k].id == Fresh(n + k) && ShapeOf(es[k]) == shapes[k]
  {
    seq(|shapes|, k requires 0 <= k < |shapes| => Rule(Fresh(n + k), shapes[k]))
  }

  /** What the prompt asks for, each answer being one of the source's keyword tests. */
  datatype Asks = Asks(view: ViewType, health: bool, lives: bool, score: bool, enemy: bool, coin: bool)

  /** The keyword tests on a lower-cased prompt. Every prompt mentioning
      lives asks for health, and every prompt mentioning coins or collecting
      asks for a score. */
  function AsksOf(p: string): (a: Asks)
    ensures a.lives ==> a.health
    ensures a.coin ==> a.score
  {
    Asks(ViewOf(p), HealthWords(p), Text.Contains(p, "lives"), ScoreWords(p), EnemyWords(p), CoinWords(p))
  }

  /** Movement rules for the view and, in a side view, the ground. */
  function MovementPhase(view: ViewType, n: nat): (b: Build)
    ensures |b.events| == 4 && b.variables == []
  {
    if view == SIDE then Build([GroundObject(Fresh(n + 4))], Rules(SideMoves, n), [], n + 5)
    else Build([], Rules(TopDownMoves, n), [], n + 4)
  }

  /** A 'Lives' global when the prompt asks for health and mentions lives. */
  function LivesPhase(b: Build, health: bool, lives: bool): Build {
    if health && lives then
      b.(variables := b.variables + [Variable(Fresh(b.next), "Lives", 3.0, GlobalScope)], next := b.next + 1)
    else b
  }

  /** A 'Score' global when the prompt mentions score, coins or collecting. */
  function ScorePhase(b: Build, score: bool): Build {
    if score then
      b.(variables := b.variables + [Variable(Fresh(b.next), "Score", 0.0, GlobalScope)], next := b.next + 1)
    else b
  }

  /** An enemy and the rule for touching it. */
  function EnemyPhase(b: Build, enemy: bool, view: ViewType, hasHp: bool): Build {
    if enemy then
      b.(objects := b.objects + [EnemyObject(Fresh(b.next), view)],
         events := b.events + [Rule(Fresh(b.next + 1), if hasHp then EnemyHitsHp else EnemyKills)],
         next := b.next + 2)
    else b
  }

  /** A coin and, when a 'Score' global exists, the rules for picking it up. */
  function CoinPhase(b: Build, coin: bool, view: ViewType): Build {
    if coin then
      var withCoin := b.(objects := b.objects + [CoinObject(Fresh(b.next), view)], next := b.next + 1);
      match FindVariable(b.variables, "Score")
      case None => withCoin
      case Some(score) =>
        withCoin.(events := withCoin.events + [Rule(Fresh(withCoin.next), CoinScores(score.id)),
                                               Rule(Fresh(withCoin.next + 1), CoinTaken)],
                  next := withCoin.next + 2)
    else b
  }

  /** The player's instance variables: 100 hp when the prompt asks for health. */
  function PlayerVars(health: bool): Vars {
    if health then [("hp", Num(100.0))] else []
  }

  /** The globals: movement adds none, then 'Lives' and 'Score'. */
  function GlobalsPhase(a: Asks, n: nat): Build {
    ScorePhase(LivesPhase(MovementPhase(a.view, n + 1), a.health, a.lives), a.score)
  }

  /** Everything before the player is pushed; the player holds id `n`. */
  function Assembled(a: Asks, n: nat): Build {
    CoinPhase(EnemyPhase(GlobalsPhase(a, n), a.enemy, a.view, a.health), a.coin, a.view)
  }

  /** The template for the given answers, the player (id `n`) pushed last. */
  function Template(a: Asks, n: nat): Projects.CustomTemplate {
    var b := Assembled(a, n);
    Projects.CustomTemplate(a.view, 32.0, b.objects + [PlayerObject(Fresh(n), a.view, PlayerVars(a.health))], b.events, b.variables)
  }

  /** What generateGameFromPrompt returns for a prompt, ids being handed out
      from `n` in the order the source calls `uuidv4()`. */
  function PromptTemplate(prompt: string, n: nat): Generated {
    var a := AsksOf(Text.Lower(prompt));
    Generated(Template(a, n), Assembled(a, n).next)
  }

  // ---------------------------------------------------------------------
  // The builder, push by push.
  // ---------------------------------------------------------------------

  /** Four rules pushed one by one are the rules at ids `n` to `n + 3`. */
  lemma FourRules(shapes: seq<RuleShape>, n: nat)
    requires |shapes| == 4
    ensures Rules(shapes, n) == [Rule(Fresh(n), shapes[0]), Rule(Fresh(n + 1), shapes[1]),
                                 Rule(Fresh(n + 2), shapes[2]), Rule(Fresh(n + 3), shapes[3])]
  {
    var es := [Rule(Fresh(n), shapes[0]), Rule(Fresh(n + 1), shapes[1]),
               Rule(Fresh(n + 2), shapes[2]), Rule(Fresh(n + 3), shapes[3])];
    assert forall k :: 0 <= k < 4 ==> es[k] == Rule(Fresh(n + k), shapes[k]);
  }

  /** Movement logic: the view's four movement rules, pushed in order, and, in
      a side view, the floor. */
  method PushMovement(view: ViewType, next: nat) returns (b: Build)
    ensures b == MovementPhase(view, next)
  {
    var moves := if view == SIDE then SideMoves else TopDownMoves;
    var events := [Rule(Fresh(next), moves[0]), Rule(Fresh(next + 1), moves[1]),
                   Rule(Fresh(next + 2), moves[2]), Rule(Fresh(next + 3), moves[3])];
    FourRules(moves, next);
    if view == SIDE {
      b := Build([GroundObject(Fresh(next + 4))], events, [], next + 5);
    } else {
      b := Build([], events, [], next + 4);
    }
  }

  /** HP / health logic: the player's hp and, for lives, a 'Lives' global. */
  method PushHealth(b: Build, p: string) returns (b': Build, playerVars: Vars)
    ensures b' == LivesPhase(b, AsksOf(p).health, AsksOf(p).lives) && playerVars == PlayerVars(AsksOf(p).health)
  {
    b' := b;
    playerVars := [];
    if HealthWords(p) {
      playerVars := JsRecord.Set(playerVars, "hp", Num(100.0));
      if Text.Contains(p, "lives") {
        b' := b'.(variables := b'.variables + [Variable(Fresh(b'.next), "Lives", 3.0, GlobalScope)], next := b'.next + 1);
      }
    }
  }

  /** Score: a 'Score' global. */
  method PushScore(b: Build, p: string) returns (b': Build)
    ensures b' == ScorePhase(b, AsksOf(p).score)
  {
    b' := b;
    if ScoreWords(p) {
      b' := b'.(variables := b'.variables + [Variable(Fresh(b'.next), "Score", 0.0, GlobalScope)], next := b'.next + 1);
    }
  }

  /** Enemies: the enemy and the rule for touching it, which depends on
      whether the player has an hp variable. */
  method PushEnemy(b: Build, p: string, view: ViewType, playerVars: Vars) returns (b': Build)
    ensures b' == EnemyPhase(b, AsksOf(p).enemy, view, JsRecord.Get(playerVars, "hp") != Undefined)
  {
    b' := b;
    if EnemyWords(p) {
      b' := b'.(objects := b'.objects + [EnemyObject(Fresh(b'.next), view)], next := b'.next + 1);
      if JsRecord.Get(playerVars, "hp") != Undefined {
        b' := b'.(events := b'.events + [Rule(Fresh(b'.next), EnemyHitsHp)]);
      } else {
        b' := b'.(events := b'.events + [Rule(Fresh(b'.next), EnemyKills)]);
      }
      b' := b'.(next := b'.next + 1);
    }
  }

  /** Coins: the coin and, when 'Score' is found, its two rules. */
  method PushCoin(b: Build, p: string, view: ViewType) returns (b': Build)
    ensures b' == CoinPhase(b, AsksOf(p).coin, view)
  {
    b' := b;
    if CoinWords(p) {
      b' := b'.(objects := b'.objects + [CoinObject(Fresh(b'.next), view)], next := b'.next + 1);
      var scoreVar := FindVariable(b'.variables, "Score");
      if scoreVar.Some? {
        b' := b'.(events := b'.events + [Rule(Fresh(b'.next), CoinScores(scoreVar.value.id))]);
        b' := b'.(events := b'.events + [Rule(Fresh(b'.next + 1), CoinTaken)]);
        b' := b'.(next := b'.next + 2);
      }
    }
  }

  /** generateGameFromPrompt: the view, then the player (holding the first
      id), then each section's pushes, the player going last. The template's
      own id, name, description and creation time are not carried. */
  method GenerateGameFromPrompt(prompt: string, firstId: nat) returns (t: Projects.CustomTemplate, nextId: nat)
    ensures Generated(t, nextId) == PromptTemplate(prompt, firstId)
  {
    var p := Text.Lower(prompt);
    var view := SIDE;
    if TopDownWords(p) {
      view := TOP_DOWN;
    } else if IsoWords(p) {
      view := ISO;
    }
    assert view == AsksOf(p).view;
    var playerId := Fresh(firstId);
    var b := PushMovement(view, firstId + 1);
    var playerVars;
    b, playerVars := PushHealth(b, p);
    b := PushScore(b, p);
    PlayerHp(AsksOf(p).health);
    b := PushEnemy(b, p, view, playerVars);
    b := PushCoin(b, p, view);
    t := Projects.CustomTemplate(view, 32.0, b.objects + [PlayerObject(playerId, view, playerVars)], b.events, b.variables);
    nextId := b.next;
  }

  // ---------------------------------------------------------------------
  // What the generated template promises: first phase by phase, then about
  // the assembled lists for any answers to the keyword tests, then about the
  // template of a prompt.
  // ---------------------------------------------------------------------

  /** The movement phase adds walls only, and rules that are not about
      collisions and name no coin. */
  lemma MovementShapes(view: ViewType, n: nat)
    ensures var b := MovementPhase(view, n);
      && (forall o :: o in b.objects ==> o.otype == Wall)
      && (forall e :: e in b.events ==> e.condition.ctype != COLLISION && e.condition.param != "Coin")
      && (view == SIDE ==> |b.objects| == 1 && b.objects[0].name == "Ground" && b.objects[0].hasCollision)
  {
    var b := MovementPhase(view, n);
    var shapes := if view == SIDE then SideMoves else TopDownMoves;
    forall e | e in b.events
      ensures e.condition.ctype != COLLISION && e.condition.param != "Coin"
    {
      var k :| 0 <= k < 4 && b.events[k] == e;
      assert ShapeOf(e) == shapes[k];
    }
  }

  /** The globals phase adds no object and no rule; a score request gives a 'Score' global. */
  lemma GlobalsStep(a: Asks, n: nat)
    ensures var g := GlobalsPhase(a, n);
      var m := MovementPhase(a.view, n + 1);
      && g.objects == m.objects && g.events == m.events
      && (a.score ==> FindVariable(g.variables, "Score").Some?)
  {
    var g := GlobalsPhase(a, n);
    if a.score {
      var score := g.variables[|g.variables| - 1];
      assert score in g.variables && score.name == "Score";
    }
  }

  /** The enemy phase keeps the variables and only appends to the lists. */
  lemma EnemyKeeps(b: Build, enemy: bool, view: ViewType, hasHp: bool)
    ensures var r := EnemyPhase(b, enemy, view, hasHp);
      && r.variables == b.variables
      && |r.objects| >= |b.objects| && r.objects[..|b.objects|] == b.objects
      && |r.events| >= |b.events| && r.events[..|b.events|] == b.events
  {
  }

  /** The enemy phase appends an enemy and its rule when asked for, nothing otherwise. */
  lemma EnemyAdds(b: Build, enemy: bool, view: ViewType, hasHp: bool)
    ensures var r := EnemyPhase(b, enemy, view, hasHp);
      && (forall o :: o in r.objects ==> o in b.objects || o.otype == Enemy)
      && (forall e :: e in r.events ==> e in b.events || e.condition.param == "Enemy")
      && (enemy ==> |r.objects| > |b.objects| && r.objects[|b.objects|].otype == Enemy &&
                    |r.events| > |b.events| &&
                    ShapeOf(r.events[|b.events|]) == (if hasHp then EnemyHitsHp else EnemyKills))
  {
  }

  /** The coin phase keeps the variables and only appends to the lists. */
  lemma CoinKeeps(b: Build, coin: bool, view: ViewType)
    ensures var r := CoinPhase(b, coin, view);
      && r.variables == b.variables
      && |r.objects| >= |b.objects| && r.objects[..|b.objects|] == b.objects
      && |r.events| >= |b.events| && r.events[..|b.events|] == b.events
  {
  }

  /** The coin phase appends a coin and, when 'Score' is found, its two
      rules; nothing when no coin is asked for. */
  lemma CoinAdds(b: Build, coin: bool, view: ViewType)
    ensures var r := CoinPhase(b, coin, view);
      var score := FindVariable(b.variables, "Score");
      && (forall o :: o in r.objects ==> o in b.objects || o.otype == Coin)
      && (coin ==> |r.objects| == |b.objects| + 1 && r.objects[|b.objects|].otype == Coin)
      && (coin && score.Some? ==>
            |r.events| == |b.events| + 2 &&
            ShapeOf(r.events[|b.events|]) == CoinScores(score.value.id) &&
            ShapeOf(r.events[|b.events| + 1]) == CoinTaken)
      && (!coin ==> r == b)
  {
  }

  /** The player has an hp variable, at 100, exactly when health is asked for. */
  lemma PlayerHp(health: bool)
    ensures JsRecord.Get(PlayerVars(health), "hp") == (if health then Num(100.0) else Undefined)
  {
    if health {
      JsRecord.GetSetSame([], "hp", Num(100.0));
      assert JsRecord.Set([], "hp", Num(100.0)) == [("hp", Num(100.0))];
    }
  }

  /** The player piece: named Player, solid, falling exactly in a side view,
      with 100 hp exactly when health is asked for. */
  lemma PlayerPiece(id: Id, view: ViewType, health: bool)
    ensures var pl := PlayerObject(id, view, PlayerVars(health));
      pl.otype == Player && pl.name == "Player" && pl.hasCollision &&
      (pl.hasGravity <==> view == SIDE) &&
      JsRecord.Get(pl.variables, "hp") == (if health then Num(100.0) else Undefined)
  {
    PlayerHp(health);
  }

  /** Nothing pushed before the player is a Player. */
  lemma NoPlayerBeforeLast(a: Asks, n: nat)
    ensures forall o :: o in Assembled(a, n).objects ==> o.otype != Player
  {
    var g := GlobalsPhase(a, n);
    var e := EnemyPhase(g, a.enemy, a.view, a.health);
    MovementShapes(a.view, n + 1);
    GlobalsStep(a, n);
    EnemyAdds(g, a.enemy, a.view, a.health);
    CoinAdds(e, a.coin, a.view);
    assert Assembled(a, n) == CoinPhase(e, a.coin, a.view);
  }

  /** The player is the last object and the only Player; it falls under
      gravity exactly in a side view, and it has 100 hp exactly when health
      is asked for. */
  lemma PlayerIsLast(a: Asks, n: nat)
    ensures var t := Template(a, n);
      |t.objects| >= 1 &&
      var pl := t.objects[|t.objects| - 1];
      pl.otype == Player && pl.name == "Player" && pl.hasCollision &&
      (pl.hasGravity <==> t.view == SIDE) &&
      JsRecord.Get(pl.variables, "hp") == (if a.health then Num(100.0) else Undefined) &&
      (forall k :: 0 <= k < |t.objects| - 1 ==> t.objects[k].otype != Player)
  {
    var b := Assembled(a, n);
    var t := Template(a, n);
    NoPlayerBeforeLast(a, n);
    PlayerPiece(Fresh(n), a.view, a.health);
    forall k | 0 <= k < |t.objects| - 1
      ensures t.objects[k].otype != Player
    {
      assert t.objects[k] == b.objects[k];
      assert b.objects[k] in b.objects;
    }
  }

  lemma MovementAssembled(a: Asks, n: nat)
    ensures var b := Assembled(a, n);
      var m := MovementPhase(a.view, n + 1);
      |b.events| >= 4 && b.events[..4] == m.events && b.objects[..|m.objects|] == m.objects
  {
    var m := MovementPhase(a.view, n + 1);
    var g := GlobalsPhase(a, n);
    var e := EnemyPhase(g, a.enemy, a.view, a.health);
    var c := CoinPhase(e, a.coin, a.view);
    assert Assembled(a, n) == c;
    GlobalsStep(a, n);
    EnemyKeeps(g, a.enemy, a.view, a.health);
    CoinKeeps(e, a.coin, a.view);
    assert c.events[..4] == c.events[..|e.events|][..4] == e.events[..4] == e.events[..|g.events|][..4];
    assert c.objects[..|m.objects|] == c.objects[..|e.objects|][..|m.objects|] == e.objects[..|m.objects|]
      == e.objects[..|g.objects|][..|m.objects|];
  }

  /** The first four rules are the movement set of the view; a side view also
      gets a ground wall as its first object. */
  lemma MovementFirst(a: Asks, n: nat)
    ensures var t := Template(a, n);
      |t.events| >= 4 &&
      (forall k :: 0 <= k < 4 ==> ShapeOf(t.events[k]) == (if t.view == SIDE then SideMoves else TopDownMoves)[k]) &&
      (t.view == SIDE ==> t.objects[0].name == "Ground" && t.objects[0].otype == Wall && t.objects[0].hasCollision)
  {
    var b := Assembled(a, n);
    MovementAssembled(a, n);
    MovementShapes(a.view, n + 1);
    var m := MovementPhase(a.view, n + 1);
    var t := Template(a, n);
    forall k | 0 <= k < 4
      ensures ShapeOf(t.events[k]) == (if t.view == SIDE then SideMoves else TopDownMoves)[k]
    {
      assert t.events[k] == b.events[..4][k] == m.events[k];
    }
    if a.view == SIDE {
      assert t.objects[0] == b.objects[..|m.objects|][0] == m.objects[0];
      assert m.objects[0] in m.objects;
    }
  }

  lemma GlobalsAssembled(a: Asks, n: nat)
    requires a.lives ==> a.health
    ensures var vs := GlobalsPhase(a, n).variables;
      ((exists v :: v in vs && v.name == "Lives" && v.initialValue == 3.0) <==> a.lives) &&
      ((exists v :: v in vs && v.name == "Score" && v.initialValue == 0.0) <==> a.score) &&
      |vs| <= 2
  {
    var b0 := MovementPhase(a.view, n + 1);
    var b1 := LivesPhase(b0, a.health, a.lives);
    var b2 := ScorePhase(b1, a.score);
    assert forall v :: v in b1.variables ==> v.name == "Lives";
    if a.lives {
      assert b1.variables[0] in b2.variables;
    }
    if a.score {
      assert b2.variables[|b2.variables| - 1] in b2.variables;
    }
  }

  /** The global variables: 'Lives' = 3 exactly when lives are asked for,
      and 'Score' = 0 exactly when a score is; the grid is always 32. */
  lemma GlobalsAsked(a: Asks, n: nat)
    requires a.lives ==> a.health
    ensures var t := Template(a, n);
      ((exists v :: v in t.variables && v.name == "Lives" && v.initialValue == 3.0) <==> a.lives) &&
      ((exists v :: v in t.variables && v.name == "Score" && v.initialValue == 0.0) <==> a.score) &&
      |t.variables| <= 2 && t.gridSize == 32.0
  {
    var g := GlobalsPhase(a, n);
    var e := EnemyPhase(g, a.enemy, a.view, a.health);
    EnemyKeeps(g, a.enemy, a.view, a.health);
    CoinKeeps(e, a.coin, a.view);
    GlobalsAssembled(a, n);
  }

  lemma EnemyAssembled(a: Asks, n: nat)
    ensures var b := Assembled(a, n);
      (a.enemy ==>
        |b.events| >= 5 &&
        ShapeOf(b.events[4]) == (if a.health then EnemyHitsHp else EnemyKills) &&
        (exists o :: o in b.objects && o.otype == Enemy)) &&
      (!a.enemy ==> forall o :: o in b.objects ==> o.otype != Enemy)
  {
    var g := GlobalsPhase(a, n);
    var e := EnemyPhase(g, a.enemy, a.view, a.health);
    var c := CoinPhase(e, a.coin, a.view);
    assert Assembled(a, n) == c;
    GlobalsStep(a, n);
    EnemyAdds(g, a.enemy, a.view, a.health);
    if a.enemy {
      CoinKeeps(e, a.coin, a.view);
      assert c.events[4] == c.events[..|e.events|][4] == e.events[4];
      assert c.objects[|g.objects|] == c.objects[..|e.objects|][|g.objects|] == e.objects[|g.objects|];
      assert c.objects[|g.objects|] in c.objects;
    } else {
      MovementShapes(a.view, n + 1);
      CoinAdds(e, a.coin, a.view);
    }
  }

  /** An enemy request adds an Enemy and its collision rule, right after the
      movement rules: damage to the player's hp when the player has hp,
      otherwise the player is destroyed. Without it there is no Enemy at all. */
  lemma EnemyRule(a: Asks, n: nat)
    ensures var t := Template(a, n);
      (a.enemy ==>
        |t.events| >= 5 &&
        ShapeOf(t.events[4]) == (if a.health then EnemyHitsHp else EnemyKills) &&
        (exists o :: o in t.objects && o.otype == Enemy)) &&
      (!a.enemy ==> forall o :: o in t.objects ==> o.otype != Enemy)
  {
    var b := Assembled(a, n);
    var t := Template(a, n);
    EnemyAssembled(a, n);
    if a.enemy {
      var o :| o in b.objects && o.otype == Enemy;
      assert o in t.objects;
    }
  }

  lemma CoinAssembled(a: Asks, n: nat)
    requires a.coin && a.score
    ensures var b := Assembled(a, n);
      var k := |b.events| - 2;
      k >= 4 &&
      FindVariable(b.variables, "Score").Some? &&
      ShapeOf(b.events[k]) == CoinScores(FindVariable(b.variables, "Score").value.id) &&
      ShapeOf(b.events[k + 1]) == CoinTaken &&
      |b.objects| >= 1 && b.objects[|b.objects| - 1].otype == Coin
  {
    var g := GlobalsPhase(a, n);
    var e := EnemyPhase(g, a.enemy, a.view, a.health);
    GlobalsStep(a, n);
    EnemyKeeps(g, a.enemy, a.view, a.health);
    CoinAdds(e, a.coin, a.view);
    assert |g.events| == 4 && FindVariable(e.variables, "Score").Some?;
    assert Assembled(a, n) == CoinPhase(e, a.coin, a.view);
  }

  /** A coin request always finds its 'Score' variable, so it always gets the
      two coin rules as its last rules, and the scoring rule adds to that
      variable. */
  lemma CoinRulesScore(a: Asks, n: nat)
    requires a.coin ==> a.score
    ensures var t := Template(a, n);
      a.coin ==>
        var k := |t.events| - 2;
        k >= 4 &&
        FindVariable(t.variables, "Score").Some? &&
        ShapeOf(t.events[k]) == CoinScores(FindVariable(t.variables, "Score").value.id) &&
        ShapeOf(t.events[k + 1]) == CoinTaken &&
        (exists o :: o in t.objects && o.otype == Coin)
  {
    if a.coin {
      var b := Assembled(a, n);
      var t := Template(a, n);
      CoinAssembled(a, n);
      assert t.objects[|b.objects| - 1] == b.objects[|b.objects| - 1];
      assert t.objects[|b.objects| - 1] in t.objects;
    }
  }

  lemma NoCoinsAssembled(a: Asks, n: nat)
    requires !a.coin
    ensures forall o :: o in Assembled(a, n).objects ==> o.otype != Coin
    ensures forall e :: e in Assembled(a, n).events ==> e.condition.param != "Coin"
  {
    var g := GlobalsPhase(a, n);
    var e := EnemyPhase(g, a.enemy, a.view, a.health);
    MovementShapes(a.view, n + 1);
    GlobalsStep(a, n);
    EnemyAdds(g, a.enemy, a.view, a.health);
    CoinAdds(e, a.coin, a.view);
    assert Assembled(a, n) == e;
  }

  /** Without a coin request there is no coin and no rule about coins. */
  lemma NoCoinsUnasked(a: Asks, n: nat)
    ensures var t := Template(a, n);
      !a.coin ==>
        (forall o :: o in t.objects ==> o.otype != Coin) &&
        (forall e :: e in t.events ==> e.condition.param != "Coin")
  {
    if !a.coin {
      NoCoinsAssembled(a, n);
    }
  }
}
