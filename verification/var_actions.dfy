/**
 * The variable-action encoding of the rule editor (components/EventSheet.tsx):
 * the six variable actions are shown as one "Variable" action with a scope
 * selector (GLOBAL/OBJECT) and an operation selector (SET/ADD/SUB).
 */
module VarActions {
  import opened Types

  datatype ScopeSel = GLOBAL | OBJECT
  datatype VarOp = SET | ADD | SUB
  datatype VarActionState = VarActionState(scope: ScopeSel, op: VarOp)

  /** `isVariableCondition`. */
  predicate IsVariableCondition(t: ConditionType) {
    t in {VAR_EQUALS, VAR_GT, VAR_LT}
  }

  /** `isAnyVarAction`. */
  predicate IsAnyVarAction(t: ActionType) {
    t in {VAR_SET, VAR_ADD, VAR_SUB, OBJ_VAR_SET, OBJ_VAR_ADD, OBJ_VAR_SUB}
  }

  /** `mapToMainAction`: an object-variable action shown as its global twin. */
  function MapToMainAction(t: ActionType): (r: ActionType)
    ensures t !in {OBJ_VAR_SET, OBJ_VAR_ADD, OBJ_VAR_SUB} ==> r == t
    ensures r !in {OBJ_VAR_SET, OBJ_VAR_ADD, OBJ_VAR_SUB}
    ensures IsAnyVarAction(t) <==> IsAnyVarAction(r)
  {
    match t
    case OBJ_VAR_SET => VAR_SET
    case OBJ_VAR_ADD => VAR_ADD
    case OBJ_VAR_SUB => VAR_SUB
    case _ => t
  }

  /** `getVarActionState`: the scope from the prefix, the operation from the
      trailing `_SET`/`_ADD`/`_SUB`, GLOBAL/SET for every other action. */
  function GetVarActionState(t: ActionType): VarActionState {
    match t
    case VAR_SET => VarActionState(GLOBAL, SET)
    case VAR_ADD => VarActionState(GLOBAL, ADD)
    case VAR_SUB => VarActionState(GLOBAL, SUB)
    case OBJ_VAR_SET => VarActionState(OBJECT, SET)
    case OBJ_VAR_ADD => VarActionState(OBJECT, ADD)
    case OBJ_VAR_SUB => VarActionState(OBJECT, SUB)
    case _ => VarActionState(GLOBAL, SET)
  }

  /** `constructVarActionType(scope, op)`: `VAR_<op>` or `OBJ_VAR_<op>`. */
  function ConstructVarActionType(scope: ScopeSel, op: VarOp): (t: ActionType)
    ensures IsAnyVarAction(t)
  {
    match (scope, op)
    case (GLOBAL, SET) => VAR_SET
    case (GLOBAL, ADD) => VAR_ADD
    case (GLOBAL, SUB) => VAR_SUB
    case (OBJECT, SET) => OBJ_VAR_SET
    case (OBJECT, ADD) => OBJ_VAR_ADD
    case (OBJECT, SUB) => OBJ_VAR_SUB
  }

  /** The scope selector: a new scope, the current operation. */
  function OnScopeSelected(t: ActionType, scope: ScopeSel): ActionType {
    ConstructVarActionType(scope, GetVarActionState(t).op)
  }

  /** The operation selector: the current scope, a new operation. */
  function OnOpSelected(t: ActionType, op: VarOp): ActionType {
    ConstructVarActionType(GetVarActionState(t).scope, op)
  }

  lemma MapToMainActionIdempotent(t: ActionType)
    ensures MapToMainAction(MapToMainAction(t)) == MapToMainAction(t)
    ensures GetVarActionState(MapToMainAction(t)).op == GetVarActionState(t).op
    ensures IsAnyVarAction(t) ==> GetVarActionState(MapToMainAction(t)).scope == GLOBAL
  {
  }

  /** Scope GLOBAL exactly for `VAR_*`, OBJECT exactly for `OBJ_VAR_*`. */
  lemma ScopeOfVarActions(t: ActionType)
    ensures GetVarActionState(t).scope == OBJECT <==> t in {OBJ_VAR_SET, OBJ_VAR_ADD, OBJ_VAR_SUB}
    ensures !IsAnyVarAction(t) ==> GetVarActionState(t) == VarActionState(GLOBAL, SET)
  {
  }

  /** Decoding then encoding a variable action gives it back ... */
  lemma {:induction false} VarActionRoundTrip(t: ActionType)
    requires IsAnyVarAction(t)
    ensures ConstructVarActionType(GetVarActionState(t).scope, GetVarActionState(t).op) == t
  {
  }

  /** ... and encoding then decoding gives back the selector state. */
  lemma VarActionStateRoundTrip(scope: ScopeSel, op: VarOp)
    ensures GetVarActionState(ConstructVarActionType(scope, op)) == VarActionState(scope, op)
  {
  }

  /** Changing one selector keeps the other. */
  lemma SelectorsAreIndependent(t: ActionType, scope: ScopeSel, op: VarOp)
    ensures GetVarActionState(OnScopeSelected(t, scope)) == VarActionState(scope, GetVarActionState(t).op)
    ensures GetVarActionState(OnOpSelected(t, op)) == VarActionState(GetVarActionState(t).scope, op)
    ensures IsAnyVarAction(t) ==> OnScopeSelected(t, GetVarActionState(t).scope) == t
  {
    VarActionStateRoundTrip(scope, GetVarActionState(t).op);
    VarActionStateRoundTrip(GetVarActionState(t).scope, op);
  }
}
