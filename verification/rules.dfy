/**
 * One play-mode rule applied to one object or one variable
 * (components/GameRuntime.tsx): the frame's time scale and hit-stop, the
 * per-object timers, rule conditions, per-rule cooldowns, variable actions,
 * `applyObjectVarChange`, the non-collision actions and the placement of a
 * spawned object.
 */
module Rules {
  import opened Wrappers
  import opened Types
  import opened Text
  import opened RuntimeObjects
  import opened JsValues
  import JsRecord

  /** Global variables at play time: variable id to number (`variablesRef`). */
  type NumVars = map<Id, real>

  // ---------------------------------------------------------------- time scale

  /** How long a hit freezes the simulation, in seconds (`triggerHitStop(0.15)`). */
  const HitStopOnHit: real := 0.15
  /** The invincibility window after taking hp damage, in seconds. */
  const InvincibleAfterHit: real := 1.5
  /** The reference frame length the physics scale is measured in, in ms. */
  const ReferenceFrameMs: real := 16.67
  /** The largest physics scale a single frame may have. */
  const MaxPhysicsScale: real := 4.0

  function Min(a: real, b: real): real { if a <= b then a else b }
  function Abs(a: real): real { if a < 0.0 then -a else a }

  /** The frame's hit-stop timer after this frame, and the scales derived from it. */
  datatype TimeScale = TimeScale(hitStop: real, effect: real, simDt: real, physics: real)

  /** Lines 280-292 of the animation callback: `dtMs` is the time since the last frame. */
  function FrameScale(hitStop: real, dtMs: real): TimeScale {
    var dtSec := dtMs / 1000.0;
    var (h, effect) :=
      if hitStop > 0.0 then
        if hitStop - dtSec > 0.0 then (hitStop - dtSec, 0.0) else (0.0, 1.0)
      else (hitStop, 1.0);
    TimeScale(h, effect, dtSec * effect, Min(dtMs / ReferenceFrameMs, MaxPhysicsScale) * effect)
  }

  /** A pending hit-stop that outlasts the frame freezes it (scale 0, nothing
      simulated, timer reduced by the frame); otherwise the timer ends up at 0
      or stays where it was, and the frame runs at scale 1. */
  lemma FrameScaleSpec(hitStop: real, dtMs: real)
    ensures var t := FrameScale(hitStop, dtMs);
      && (t.effect == 0.0 <==> hitStop > 0.0 && hitStop - dtMs / 1000.0 > 0.0)
      && (t.effect == 0.0 || t.effect == 1.0)
      && (t.effect == 0.0 ==> t.simDt == 0.0 && t.physics == 0.0 && t.hitStop == hitStop - dtMs / 1000.0)
      && (t.effect == 1.0 ==> t.simDt == dtMs / 1000.0 && t.hitStop == (if hitStop > 0.0 then 0.0 else hitStop))
      && (hitStop >= 0.0 && dtMs >= 0.0 ==> 0.0 <= t.hitStop <= hitStop)
      && (t.effect == 1.0 ==> t.physics == Min(dtMs / ReferenceFrameMs, MaxPhysicsScale))
      && t.physics <= MaxPhysicsScale
      && (dtMs >= 0.0 ==> t.physics >= 0.0)
  {
  }

  // ---------------------------------------------------------------- timers

  /** The instance variable counting down an object's remaining life, in seconds. */
  const LifetimeKey: string := "lifetime"

  datatype TimerStep = TimerStep(obj: RuntimeObject, expired: bool)

  /** Line 312-315: a running invincibility window shrinks by the frame, stopping at 0. */
  function CountDown(timer: real, simDt: real): real {
    if timer > 0.0 then
      if timer - simDt < 0.0 then 0.0 else timer - simDt
    else timer
  }

  datatype LifeStep = LifeStep(vars: Vars, expired: bool)

  /** Lines 316-322: unless the frame is frozen, a numeric `lifetime` shrinks
      by the frame, and reaching 0 expires the object. */
  function StepLifetime(vars: Vars, simDt: real, effect: real): LifeStep {
    var life := JsRecord.Get(vars, LifetimeKey);
    if effect > 0.0 && life.Num? then
      var left := life.n - simDt;
      LifeStep(JsRecord.Set(vars, LifetimeKey, Num(left)), left <= 0.0)
    else LifeStep(vars, false)
  }

  /** Lines 316-320: whether this frame ends the object's life. */
  predicate LifetimeRunsOut(vars: Vars, simDt: real, effect: real) {
    var life := JsRecord.Get(vars, LifetimeKey);
    effect > 0.0 && life.Num? && life.n - simDt <= 0.0
  }

  /** Lines 309-323 for one object; `expired` marks it for recycling. */
  function StepTimers(o: RuntimeObject, simDt: real, effect: real): (r: TimerStep)
    ensures r.obj.id == o.id
    ensures r.expired == LifetimeRunsOut(o.variables, simDt, effect)
  {
    var life := StepLifetime(o.variables, simDt, effect);
    TimerStep(o.(invincibleTimer := CountDown(o.invincibleTimer, simDt), variables := life.vars), life.expired)
  }

  lemma CountDownSpec(timer: real, simDt: real)
    requires simDt >= 0.0
    ensures timer > 0.0 ==> 0.0 <= CountDown(timer, simDt) <= timer && CountDown(timer, simDt) == Max0(timer - simDt)
    ensures timer <= 0.0 ==> CountDown(timer, simDt) == timer
  {
  }

  lemma StepLifetimeSpec(vars: Vars, simDt: real, effect: real)
    ensures var r := StepLifetime(vars, simDt, effect);
      // a frozen frame leaves the lifetime alone and recycles nothing
      && (effect <= 0.0 ==> r.vars == vars && !r.expired)
      // otherwise a numeric lifetime is reduced, and the object expires when it reaches 0
      && (effect > 0.0 && JsRecord.Get(vars, LifetimeKey).Num? ==>
            var left := JsRecord.Get(vars, LifetimeKey).n - simDt;
            JsRecord.Get(r.vars, LifetimeKey) == Num(left) && (r.expired <==> left <= 0.0))
      && (!JsRecord.Get(vars, LifetimeKey).Num? ==> r.vars == vars && !r.expired)
  {
    if effect > 0.0 && JsRecord.Get(vars, LifetimeKey).Num? {
      JsRecord.GetSetSame(vars, LifetimeKey, Num(JsRecord.Get(vars, LifetimeKey).n - simDt));
    }
  }

  /** Only the two timers change. */
  lemma StepTimersIsLocal(o: RuntimeObject, simDt: real, effect: real)
    ensures var r := StepTimers(o, simDt, effect);
      r.obj == o.(invincibleTimer := r.obj.invincibleTimer, variables := r.obj.variables)
  {
  }

  function Max0(a: real): real { if a < 0.0 then 0.0 else a }

  // ---------------------------------------------------------------- conditions

  /** `s || d` on strings. */
  function OrDefault(s: string, d: string): string { if s == "" then d else s }

  /** `vars[id] || 0`: a missing variable reads as 0. */
  function ReadVar(vars: NumVars, id: Id): real { if id in vars then vars[id] else 0.0 }

  /** `(v as number) || 0` on a rule literal: falsy literals become 0, others stay as they are. */
  function LiteralOr0(v: Value): Value { if Falsy(v) then Num(0.0) else v }

  /** `o.variables[name] <op> value`, false when the object lacks the variable. */
  predicate ObjVarMatches(o: RuntimeObject, name: string, value: Value, op: string) {
    var v := JsRecord.Get(o.variables, name);
    v != Undefined && Compare(op, v, value)
  }

  predicate TypeIs(o: RuntimeObject, typeName: string) { TypeName(o.otype) == typeName }

  /** Lines 329-363: whether a non-collision rule's condition holds now. */
  predicate ConditionMet(c: Condition, objs: seq<RuntimeObject>, vars: NumVars, keys: set<string>) {
    match c.ctype
    case ALWAYS => true
    case KEY_PRESSED => c.param != "" && c.param in keys
    case MOUSE_CLICK => false
    case COLLISION => false
    case VAR_EQUALS => LiteralOr0(c.value) == Num(ReadVar(vars, c.variableId))
    case VAR_GT => Less(LiteralOr0(c.value), Num(ReadVar(vars, c.variableId)))
    case VAR_LT => Less(Num(ReadVar(vars, c.variableId)), LiteralOr0(c.value))
    case OBJ_VAR_COMPARE =>
      c.variableName != "" && c.value != Undefined &&
      exists i :: 0 <= i < |objs| && TypeIs(objs[i], OrDefault(c.target, "Player")) &&
                  ObjVarMatches(objs[i], c.variableName, c.value, OrDefault(c.operator, "="))
  }

  /** A variable that does not exist behaves exactly like one holding 0. */
  lemma MissingVariableReadsZero(c: Condition, objs: seq<RuntimeObject>, vars: NumVars, keys: set<string>)
    requires c.variableId !in vars
    ensures ConditionMet(c, objs, vars, keys) == ConditionMet(c, objs, vars[c.variableId := 0.0], keys)
  {
  }

  /** With a numeric literal the variable conditions are the comparisons they name. */
  lemma VarConditionsCompareNumbers(c: Condition, objs: seq<RuntimeObject>, vars: NumVars, keys: set<string>, x: real)
    requires c.value == Num(x)
    ensures c.ctype == VAR_EQUALS ==> (ConditionMet(c, objs, vars, keys) <==> ReadVar(vars, c.variableId) == x)
    ensures c.ctype == VAR_GT ==> (ConditionMet(c, objs, vars, keys) <==> ReadVar(vars, c.variableId) > x)
    ensures c.ctype == VAR_LT ==> (ConditionMet(c, objs, vars, keys) <==> ReadVar(vars, c.variableId) < x)
  {
  }

  /** One object of the target type (Player by default) that has the
      variable, with a value that compares true, is enough for an
      object-variable condition to hold. */
  lemma ObjVarCompareWitness(c: Condition, objs: seq<RuntimeObject>, vars: NumVars, keys: set<string>, i: nat)
    requires c.ctype == OBJ_VAR_COMPARE && c.variableName != "" && c.value != Undefined
    requires i < |objs| && TypeIs(objs[i], OrDefault(c.target, "Player"))
    requires JsRecord.Get(objs[i].variables, c.variableName) != Undefined
    requires Compare(OrDefault(c.operator, "="), JsRecord.Get(objs[i].variables, c.variableName), c.value)
    ensures ConditionMet(c, objs, vars, keys)
  {
  }

  // ---------------------------------------------------------------- cooldowns

  /** `eventCooldownsRef.current[id] || 0`. */
  function LastRun(cooldowns: map<Id, real>, id: Id): real { if id in cooldowns then cooldowns[id] else 0.0 }

  /** Lines 368-373: a rule with a positive cooldown is held back while less
      than `cooldown` seconds have passed since it last fired. */
  predicate CooledDown(e: GameEvent, cooldowns: map<Id, real>, nowSec: real) {
    !(e.action.cooldown > 0.0 && nowSec - LastRun(cooldowns, e.id) < e.action.cooldown)
  }

  /** Lines 376-378: firing records the time. */
  function RecordRun(cooldowns: map<Id, real>, e: GameEvent, nowSec: real): map<Id, real> {
    if e.action.cooldown > 0.0 then cooldowns[e.id := nowSec] else cooldowns
  }

  /** After a rule fires at `t`, it can fire again at `t'` exactly when at
      least `cooldown` seconds have passed; a rule without cooldown is never held. */
  lemma CooldownWindow(cooldowns: map<Id, real>, e: GameEvent, t: real, t': real)
    ensures e.action.cooldown > 0.0 ==>
      (CooledDown(e, RecordRun(cooldowns, e, t), t') <==> t' - t >= e.action.cooldown)
    ensures e.action.cooldown <= 0.0 ==> CooledDown(e, cooldowns, t')
    ensures forall id :: id != e.id && id in cooldowns ==> id in RecordRun(cooldowns, e, t) && RecordRun(cooldowns, e, t)[id] == cooldowns[id]
  {
  }

  // ---------------------------------------------------------------- variable actions

  predicate IsVarAction(t: ActionType) { t == VAR_SET || t == VAR_ADD || t == VAR_SUB }
  predicate IsObjVarAction(t: ActionType) { t == OBJ_VAR_SET || t == OBJ_VAR_ADD || t == OBJ_VAR_SUB }

  /** `(value as number) || 0` on a global-variable operand, read as a
      number: a string counts as 0 and a boolean as 1 or 0. */
  function Operand(v: Value): real {
    match v
    case Num(n) => n
    case Bool(b) => if b then 1.0 else 0.0
    case _ => 0.0
  }

  /** Lines 386-395 and 594-603: VAR_SET/ADD/SUB on the variable the action
      names; an action without a variable id changes nothing. */
  function ApplyVarAction(vars: NumVars, a: Action): NumVars {
    if IsVarAction(a.atype) && HasId(a.variableId) then
      var val := Operand(a.value);
      var cur := ReadVar(vars, a.variableId);
      vars[a.variableId := if a.atype == VAR_SET then val else if a.atype == VAR_ADD then cur + val else cur - val]
    else vars
  }

  lemma ApplyVarActionSpec(vars: NumVars, a: Action)
    ensures var r := ApplyVarAction(vars, a);
      && (forall id :: id != a.variableId ==> (id in r <==> id in vars) && (id in vars ==> r[id] == vars[id]))
      && (!IsVarAction(a.atype) || !HasId(a.variableId) ==> r == vars)
      && (IsVarAction(a.atype) && HasId(a.variableId) ==>
            a.variableId in r &&
            r[a.variableId] == match a.atype
              case VAR_SET => Operand(a.value)
              case VAR_ADD => ReadVar(vars, a.variableId) + Operand(a.value)
              case _ => ReadVar(vars, a.variableId) - Operand(a.value))
  {
  }

  /** Adding to a missing variable starts it from 0. */
  lemma AddToMissingVariable(vars: NumVars, a: Action)
    requires a.atype == VAR_ADD && HasId(a.variableId) && a.variableId !in vars
    ensures ApplyVarAction(vars, a)[a.variableId] == Operand(a.value)
  {
  }

  // ---------------------------------------------------------------- applyObjectVarChange

  datatype VarChange = VarChange(obj: RuntimeObject, hitStop: bool)

  /** Whether the change is damage to the object's hit points. */
  predicate IsHpDamage(t: ActionType, name: string, val: Value) {
    t == OBJ_VAR_SUB && IsHpName(name) && val.Num?
  }

  /** The value an absent variable is given before the change (lines 202-205). */
  function Initial(maxHp: real, t: ActionType, name: string): Value {
    if t == OBJ_VAR_SUB && IsHpName(name) then Num(maxHp) else Num(0.0)
  }

  /** The variable table once an absent variable has been initialised. */
  function Initialised(vars: Vars, maxHp: real, t: ActionType, name: string): Vars {
    if JsRecord.Get(vars, name) == Undefined then JsRecord.Set(vars, name, Initial(maxHp, t, name)) else vars
  }

  /** The value the variable holds once initialised. */
  function Current(vars: Vars, maxHp: real, t: ActionType, name: string): (v: Value)
    ensures v == JsRecord.Get(Initialised(vars, maxHp, t, name), name)
  {
    var v := JsRecord.Get(vars, name);
    if v == Undefined then
      JsRecord.GetSetSame(vars, name, Initial(maxHp, t, name));
      Initial(maxHp, t, name)
    else v
  }

  /** The effect of lines 201-224 on the variable table and the invincibility
      timer, and whether a hit-stop starts. */
  datatype VarEffect = VarEffect(vars: Vars, invincibleTimer: real, hitStop: bool)

  /** Whether the change lands as hp damage: damage outside the invincibility window. */
  predicate Hits(timer: real, t: ActionType, name: string, val: Value) {
    IsHpDamage(t, name, val) && timer <= 0.0
  }

  /** The value lines 207-223 write over the initialised variable, `None` when
      they write nothing. */
  function Written(curr: Value, timer: real, t: ActionType, name: string, val: Value): Option<Value> {
    if IsHpDamage(t, name, val) then
      if timer <= 0.0 && curr.Num? then Some(Num(curr.n - val.n)) else None
    else if t == OBJ_VAR_SET then Some(val)
    else if curr.Num? && val.Num? && t == OBJ_VAR_ADD then Some(Num(curr.n + val.n))
    else if curr.Num? && val.Num? && t == OBJ_VAR_SUB then Some(Num(curr.n - val.n))
    else None
  }

  /** Assign the written value, if any. */
  function WriteBack(vars: Vars, name: string, w: Option<Value>): Vars {
    if w.Some? then JsRecord.Set(vars, name, w.value) else vars
  }

  lemma WriteBackGet(vars: Vars, name: string, w: Option<Value>, k: string)
    ensures k == name ==> JsRecord.Get(WriteBack(vars, name, w), k) == if w.Some? then w.value else JsRecord.Get(vars, k)
    ensures k != name ==> JsRecord.Get(WriteBack(vars, name, w), k) == JsRecord.Get(vars, k)
  {
    if w.Some? {
      if k == name {
        JsRecord.GetSetSame(vars, name, w.value);
      } else {
        JsRecord.GetSetOther(vars, name, w.value, k);
      }
    }
  }

  function VarChangeEffect(vars: Vars, maxHp: real, timer: real, t: ActionType, name: string, val: Value): VarEffect {
    var curr := Current(vars, maxHp, t, name);
    var hit := Hits(timer, t, name, val);
    VarEffect(WriteBack(Initialised(vars, maxHp, t, name), name, Written(curr, timer, t, name, val)),
              if hit then InvincibleAfterHit else timer, hit)
  }

  /** `applyObjectVarChange(obj, type, name, val)`. */
  function ApplyObjectVarChange(o: RuntimeObject, t: ActionType, name: string, val: Value): VarChange {
    var e := VarChangeEffect(o.variables, o.maxHp, o.invincibleTimer, t, name, val);
    VarChange(o.(variables := e.vars, invincibleTimer := e.invincibleTimer), e.hitStop)
  }

  /** The value the variable holds after the change. */
  lemma ValueAfter(vars: Vars, maxHp: real, timer: real, t: ActionType, name: string, val: Value)
    ensures var w := Written(Current(vars, maxHp, t, name), timer, t, name, val);
      JsRecord.Get(VarChangeEffect(vars, maxHp, timer, t, name, val).vars, name) ==
        if w.Some? then w.value else Current(vars, maxHp, t, name)
  {
    var w := Written(Current(vars, maxHp, t, name), timer, t, name, val);
    WriteBackGet(Initialised(vars, maxHp, t, name), name, w, name);
  }

  /** Damage to "hp" (in any letter case) while invincible changes no value:
      an absent hp is only initialised to `maxHp`; no hit-stop starts. */
  lemma HpDamageWhileInvincible(vars: Vars, maxHp: real, timer: real, name: string, val: Value)
    requires IsHpDamage(OBJ_VAR_SUB, name, val) && timer > 0.0
    ensures var r := VarChangeEffect(vars, maxHp, timer, OBJ_VAR_SUB, name, val);
      && (JsRecord.Get(vars, name) != Undefined ==> r.vars == vars)
      && (JsRecord.Get(vars, name) == Undefined ==> JsRecord.Get(r.vars, name) == Num(maxHp))
      && r.invincibleTimer == timer && !r.hitStop
  {
    ValueAfter(vars, maxHp, timer, OBJ_VAR_SUB, name, val);
  }

  /** Damage to "hp" outside the invincibility window subtracts the amount
      (from `maxHp` when hp was absent), opens a 1.5 s window and starts a hit-stop. */
  lemma HpDamageHits(vars: Vars, maxHp: real, timer: real, name: string, val: Value)
    requires IsHpDamage(OBJ_VAR_SUB, name, val) && timer <= 0.0
    ensures var r := VarChangeEffect(vars, maxHp, timer, OBJ_VAR_SUB, name, val);
      var cur := Current(vars, maxHp, OBJ_VAR_SUB, name);
      && r.invincibleTimer == InvincibleAfterHit && r.hitStop
      && (cur.Num? ==> JsRecord.Get(r.vars, name) == Num(cur.n - val.n))
      && (!cur.Num? ==> JsRecord.Get(r.vars, name) == cur)
      && (JsRecord.Get(vars, name) == Undefined ==> JsRecord.Get(r.vars, name) == Num(maxHp - val.n))
  {
    var cur := Current(vars, maxHp, OBJ_VAR_SUB, name);
    assert Written(cur, timer, OBJ_VAR_SUB, name, val) == if cur.Num? then Some(Num(cur.n - val.n)) else None;
    ValueAfter(vars, maxHp, timer, OBJ_VAR_SUB, name, val);
    if JsRecord.Get(vars, name) == Undefined {
      assert cur == Num(maxHp);
    }
  }

  /** OBJ_VAR_SET always assigns the operand, whatever its type. */
  lemma ObjVarSetAssigns(vars: Vars, maxHp: real, timer: real, name: string, val: Value)
    ensures var r := VarChangeEffect(vars, maxHp, timer, OBJ_VAR_SET, name, val);
      JsRecord.Get(r.vars, name) == val && !r.hitStop && r.invincibleTimer == timer
  {
    ValueAfter(vars, maxHp, timer, OBJ_VAR_SET, name, val);
  }

  /** OBJ_VAR_ADD and OBJ_VAR_SUB (other than hp damage) change the value only
      when both it and the operand are numbers. No hit-stop starts. */
  lemma ObjVarAddSubNeedNumbers(vars: Vars, maxHp: real, timer: real, t: ActionType, name: string, val: Value)
    requires (t == OBJ_VAR_ADD || t == OBJ_VAR_SUB) && !IsHpDamage(t, name, val)
    ensures var r := VarChangeEffect(vars, maxHp, timer, t, name, val);
      var cur := Current(vars, maxHp, t, name);
      && !r.hitStop && r.invincibleTimer == timer
      && (cur.Num? && val.Num? ==>
            JsRecord.Get(r.vars, name) == Num(if t == OBJ_VAR_ADD then cur.n + val.n else cur.n - val.n))
      && (!(cur.Num? && val.Num?) ==> JsRecord.Get(r.vars, name) == cur)
  {
    var cur := Current(vars, maxHp, t, name);
    assert Written(cur, timer, t, name, val) ==
      if cur.Num? && val.Num? then Some(Num(if t == OBJ_VAR_ADD then cur.n + val.n else cur.n - val.n)) else None;
    ValueAfter(vars, maxHp, timer, t, name, val);
  }

  /** The change touches one variable and, at most, the invincibility timer. */
  lemma ObjectVarChangeIsLocal(vars: Vars, maxHp: real, timer: real, t: ActionType, name: string, val: Value, other: string)
    requires other != name
    ensures JsRecord.Get(VarChangeEffect(vars, maxHp, timer, t, name, val).vars, other) == JsRecord.Get(vars, other)
  {
    var w := Written(Current(vars, maxHp, t, name), timer, t, name, val);
    WriteBackGet(Initialised(vars, maxHp, t, name), name, w, other);
    if JsRecord.Get(vars, name) == Undefined {
      JsRecord.GetSetOther(vars, name, Initial(maxHp, t, name), other);
    }
  }

  // ---------------------------------------------------------------- actions on one object

  /** `REVERSE_X`: flip both horizontal velocities and nudge 2 px the new way. */
  function ReverseX(o: RuntimeObject): RuntimeObject {
    var avx := -o.autoVx;
    o.(vx := -o.vx, autoVx := avx, x := o.x + (if avx > 0.0 then 2.0 else -2.0))
  }

  function ReverseY(o: RuntimeObject): RuntimeObject {
    var avy := -o.autoVy;
    o.(vy := -o.vy, autoVy := avy, y := o.y + (if avy > 0.0 then 2.0 else -2.0))
  }

  /** Lines 464-468: switch to a named animation the object has, restarting it. */
  function SetAnimation(o: RuntimeObject, name: string): RuntimeObject {
    if name != "" && o.currentAnimation != Some(name) &&
       exists k :: 0 <= k < |o.animations| && o.animations[k].name == name
    then o.(currentAnimation := Some(name), animFrameIndex := 0, animTimer := 0.0)
    else o
  }

  datatype ActResult = ActResult(obj: RuntimeObject, destroyed: bool, hitStop: bool)

  /** Lines 456-478: a non-collision action on one of its targets. */
  function ApplyAction(o: RuntimeObject, a: Action, physics: real): (r: ActResult)
    ensures r.obj.id == o.id
  {
    var val := a.param;
    match a.atype
    case MOVE_X => ActResult(o.(x := o.x + val * physics), false, false)
    case MOVE_Y => ActResult(o.(y := o.y + val * physics), false, false)
    case GRAVITY => ActResult(o.(vy := o.vy + val * physics), false, false)
    case JUMP => ActResult(if o.isGrounded then o.(vy := val, isGrounded := false) else o, false, false)
    case REVERSE_X => ActResult(ReverseX(o), false, false)
    case REVERSE_Y => ActResult(ReverseY(o), false, false)
    case SET_ANIMATION => ActResult(SetAnimation(o, a.animationName), false, false)
    case DESTROY => ActResult(o, true, false)
    case OBJ_VAR_SET | OBJ_VAR_ADD | OBJ_VAR_SUB =>
      if a.variableName != "" then
        var c := ApplyObjectVarChange(o, a.atype, a.variableName, a.value);
        ActResult(c.obj, false, c.hitStop)
      else ActResult(o, false, false)
    case _ => ActResult(o, false, false)
  }

  /** A jump sets the vertical speed only from the ground, and leaves the
      object airborne; an airborne object ignores it. */
  lemma JumpOnlyWhenGrounded(o: RuntimeObject, a: Action, physics: real)
    requires a.atype == JUMP
    ensures var r := ApplyAction(o, a, physics).obj;
      && (o.isGrounded ==> r == o.(vy := a.param, isGrounded := false))
      && (!o.isGrounded ==> r == o)
  {
  }

  /** Moves scale with the frame; a frozen frame moves nothing. */
  lemma MovesScaleWithFrame(o: RuntimeObject, a: Action, physics: real)
    requires a.atype == MOVE_X || a.atype == MOVE_Y || a.atype == GRAVITY
    ensures var r := ApplyAction(o, a, physics).obj;
      && r.x - o.x == (if a.atype == MOVE_X then a.param * physics else 0.0)
      && r.y - o.y == (if a.atype == MOVE_Y then a.param * physics else 0.0)
      && r.vy - o.vy == (if a.atype == GRAVITY then a.param * physics else 0.0)
      && (physics == 0.0 ==> r == o)
  {
  }

  /** Reversing twice restores the velocities; each reversal moves 2 px in the new direction. */
  lemma ReverseXTwice(o: RuntimeObject)
    ensures ReverseX(ReverseX(o)).vx == o.vx && ReverseX(ReverseX(o)).autoVx == o.autoVx
    ensures ReverseX(o).autoVx > 0.0 ==> ReverseX(o).x == o.x + 2.0
    ensures ReverseX(o).autoVx <= 0.0 ==> ReverseX(o).x == o.x - 2.0
  {
  }

  /** Only DESTROY marks for recycling, and only hp damage starts a hit-stop. */
  lemma ActionFlags(o: RuntimeObject, a: Action, physics: real)
    ensures ApplyAction(o, a, physics).destroyed <==> a.atype == DESTROY
    ensures ApplyAction(o, a, physics).hitStop ==>
      IsHpDamage(a.atype, a.variableName, a.value) && o.invincibleTimer <= 0.0
    ensures !IsObjVarAction(a.atype) ==> ApplyAction(o, a, physics).obj.variables == o.variables
  {
  }

  /** SET_ANIMATION switches only to an animation the object has, and restarts it. */
  lemma SetAnimationSpec(o: RuntimeObject, name: string)
    ensures var r := SetAnimation(o, name);
      && (r != o ==> r.currentAnimation == Some(name) && r.animFrameIndex == 0 && r.animTimer == 0.0
                     && exists k :: 0 <= k < |o.animations| && o.animations[k].name == name)
      && (name == "" || o.currentAnimation == Some(name) ==> r == o)
    ensures name != "" && o.currentAnimation != Some(name) &&
            (exists k :: 0 <= k < |o.animations| && o.animations[k].name == name) ==>
      SetAnimation(o, name) == o.(currentAnimation := Some(name), animFrameIndex := 0, animTimer := 0.0)
  {
  }

  // ---------------------------------------------------------------- rule targets

  /** Lines 429-453: whether an object is a target of a firing non-collision
      rule: its type is named, or the target is SELF (every object); an
      object-variable condition further restricts the targets to the objects
      that satisfy it. */
  predicate IsRuleTarget(e: GameEvent, o: RuntimeObject) {
    var named := e.action.target == TypeName(o.otype) || e.action.target == "SELF";
    var c := e.condition;
    if c.ctype == OBJ_VAR_COMPARE && c.variableName != "" && c.value != Undefined then
      named && ObjVarMatches(o, c.variableName, c.value, OrDefault(c.operator, "="))
    else named
  }

  // ---------------------------------------------------------------- spawning

  datatype Gate = Gate(source: RuntimeObject, allowed: bool)

  /** Lines 408-414: a source with a positive `spawnCooldown` may spawn only
      when it has never spawned or the cooldown has passed; spawning records
      the time. */
  function SpawnGate(src: RuntimeObject, now: real): Gate {
    if src.spawnCooldown > 0.0 then
      if src.lastSpawnTime != 0.0 && now - src.lastSpawnTime < src.spawnCooldown then Gate(src, false)
      else Gate(src.(lastSpawnTime := now), true)
    else Gate(src, true)
  }

  /** A source that spawns at `t` (a nonzero clock reading) cannot spawn again
      before `t + spawnCooldown`, and can from then on. */
  lemma SpawnAtMostOncePerWindow(src: RuntimeObject, t: real, t': real)
    requires src.spawnCooldown > 0.0 && t != 0.0 && SpawnGate(src, t).allowed
    ensures SpawnGate(SpawnGate(src, t).source, t').allowed <==> t' - t >= src.spawnCooldown
  {
  }

  /** A held-back source is not changed. */
  lemma SpawnGateRefusalChangesNothing(src: RuntimeObject, now: real)
    ensures !SpawnGate(src, now).allowed ==> SpawnGate(src, now).source == src
    ensures SpawnGate(src, now).source.(lastSpawnTime := src.lastSpawnTime) == src
  {
  }

  /** The angle, in degrees, to its cosine and sine (`Math.cos`/`Math.sin` of
      `deg * PI / 180`). */
  type Trig = real -> (real, real)

  /** Lines 170-196 and 421-422: place the object `spawnObject` got from the
      pool at the spawn point (x, y), then shift it so that point is its centre.
      In a top-down view it takes the source's rotation and, if it patrols,
      the prefab's patrol velocity rotated by it; otherwise the spawn point
      becomes its patrol anchor. */
  function Place(obj: RuntimeObject, prefab: GameObject, x: real, y: real, source: RuntimeObject,
                 view: ViewType, trig: Trig): RuntimeObject {
    var o := obj.(x := x, y := y);
    var o2 :=
      if view == TOP_DOWN then
        var r := o.(rotation := source.rotation);
        if r.autoMove.Some? && r.autoMove.value.enabled then
          var (cos, sin) := trig(source.rotation);
          var lx := PatrolSpeedX(prefab.autoMove);
          var ly := PatrolSpeedY(prefab.autoMove);
          var avx := lx * cos - ly * sin;
          var avy := lx * sin + ly * cos;
          r.(autoVx := avx, autoVy := avy, vx := avx, vy := avy)
        else r
      else o.(startX := x, startY := y);
    o2.(x := o2.x - o2.width / 2.0, y := o2.y - o2.height / 2.0)
  }

  /** The spawn point of a source: its centre plus the action's offset. */
  function SpawnPoint(src: RuntimeObject, a: Action): (real, real) {
    (src.x + src.width / 2.0 + a.offsetX, src.y + src.height / 2.0 + a.offsetY)
  }

  /** A spawned object's centre is the source's centre plus the offset, and
      it keeps everything the pool gave it apart from position, rotation,
      patrol state and velocity. */
  lemma SpawnedCentre(obj: RuntimeObject, prefab: GameObject, src: RuntimeObject, a: Action,
                      view: ViewType, trig: Trig)
    ensures var (x, y) := SpawnPoint(src, a);
      var p := Place(obj, prefab, x, y, src, view, trig);
      && p.x + p.width / 2.0 == src.x + src.width / 2.0 + a.offsetX
      && p.y + p.height / 2.0 == src.y + src.height / 2.0 + a.offsetY
      && p.id == obj.id && p.active == obj.active && p.variables == obj.variables
      && p.width == obj.width && p.height == obj.height && p.otype == obj.otype
      && (view != TOP_DOWN ==> p.startX == x && p.startY == y && p.rotation == obj.rotation
                               && p.vx == obj.vx && p.vy == obj.vy)
  {
  }
}
