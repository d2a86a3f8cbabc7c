# 2D Game Engine: the editor store, the generators and the play-mode runtime, in Dafny

This project models the core of a browser-based 2D game maker. An author builds a project of
scenes. Each scene holds object templates (players, enemies, coins, walls, sprites, tiles),
WHEN/THEN rules ("events") and scene variables, and the project holds global variables. The
model covers:

- **The editor store** (`store.ts`). These are the state transformers the editor panels call
  to add, change, duplicate and delete scenes, objects, rules and variables, and to load a saved
  project. Module `Store` models each transformer as a pure function from the old store state to
  the new one. An updater that gives up (no current scene, unknown id, or an exception halfway
  through) leaves the state exactly as it was.
- **New projects** (`store.ts` createProjectFromGenre and createProjectFromCustomTemplate).
  These copy a genre preset or a saved template under fresh ids. They rewrite each rule's
  variable and prefab references through lookup tables built along the way. Module `Projects`
  states each one as a declarative function and proves the pass-by-pass methods against it.
- **The prompt generator** (`utils/aiGenerator.ts`). Keyword tests on the lower-cased prompt
  choose a view and the starting objects, rules and globals of a new template
  (module `AiGenerator`). The template's properties are proved for every combination of
  answers to those tests, and `AsksOf` gives the answers a prompt yields.
- **Play mode** (`components/GameRuntime.tsx` and `utils/ObjectPool.ts`):
  - making live objects from templates (`RuntimeObjects`);
  - the per-prefab object pool, as a class over a map of pools (`Pooling`);
  - the rule engine: conditions, cooldowns, variable actions, object-variable changes with hit
    points and invincibility, and spawning (`Rules`, `JsValues`, `JsRecord`);
  - physics: gravity, patrols, the floor, and pushing out of solids (`Physics`);
  - animation frames (`Animations`);
  - scene loading (`SceneLoading`);
  - one frame of the simulation. Module `Tick` states it as folds over the objects and rules.
    Class `Play.Runtime` implements it as loops over its fields, proved equal to those folds.
- **Editor helpers**: grid and rotation snapping (`utils/grid.ts`), the isometric projection and
  depth order (`utils/renderUtils.ts`), and the rule editor's encoding of the six variable
  actions as a scope and an operation (`components/EventSheet.tsx`).

Conventions:

- JavaScript numbers are `real`; NaN and the infinities do not occur.
- Ids are `Named(string)` for authored ids and `Fresh(n)` for the n-th id handed out by the id
  source that stands for `uuidv4()`. `NoId = Named("")` plays the part of an absent or empty id,
  which the source tests by truthiness.
- An instance-variable table (`Record<string, string | number | boolean>`) is an association
  list in insertion order, because the source looks keys up with
  `Object.keys(...).find(...)`.
- Live objects are values. Where the source relies on the live list and the pool sharing one
  object, `returnObject` writes the live state back into the pool entry with the same id.
- The frame callback of the running game is the closure of the component's first render. The
  scene whose rules a frame runs and the view it uses are therefore fixed when play starts
  (`ruleSceneId`, `view`), while `activeSceneId` follows scene switches. The model keeps this
  behaviour as written.
- Held keys, the clock read by spawners, and the trigonometry (`Math.cos`, `Math.sin`,
  `Math.atan2`) are parameters of the tick.

## Model

| member | source | states |
|---|---|---|
| Types.TypeName | types.ts:3 | an object type's name is never empty and never one of the rule keywords SELF and OTHER |
| Types.FindScene | components/GameRuntime.tsx:92 | `find` by id: None exactly when no scene has the id; a result is a listed scene with that id |
| Types.FindSceneFirst | components/GameRuntime.tsx:92 | the scene found is the one at the first index with that id |
| Text.LowerChar | utils/aiGenerator.ts:6 | only ASCII capitals are folded, by +32; every other character is kept |
| Text.Lower | utils/aiGenerator.ts:6 | lower-casing keeps the length and folds each character on its own |
| Text.HpNames | components/GameRuntime.tsx:63 | a name lower-cases to "hp" exactly when it is one of hp, hP, Hp, HP |
| Text.DigitChar | store.ts:118 | a digit's character is a decimal digit whose code is the digit's value above '0' |
| Text.Decimal | store.ts:118 | the numeral of a count is non-empty, all digits, and has no leading zero when the count is positive |
| Text.DecimalRoundTrip | store.ts:118 | reading the numeral back gives the count, so distinct counts give distinct scene names |
| JsRecord.Keys | types.ts:65 | the key list has one key per entry, in insertion order |
| JsRecord.Get | types.ts:65 | reading an absent key gives undefined; otherwise it gives the value of the first entry with the key |
| JsRecord.Set | utils/aiGenerator.ts:85 | assigning to a present key keeps the size and the key order; assigning to a new key appends it |
| JsRecord.GetSetSame | utils/aiGenerator.ts:85 | reading a key just assigned gives the assigned value |
| JsRecord.GetSetOther | components/GameRuntime.tsx:201-224 | assigning one key leaves every other key's value unchanged |
| JsRecord.SetKeepsUniqueKeys | components/GameRuntime.tsx:201-224 | assignment never duplicates a key |
| JsValues.ToNumber | components/GameRuntime.tsx:355-358 | Number() of a number is itself, of a boolean 1 or 0, of undefined NaN, of the empty string 0, and of any other string NaN (numeric strings are not parsed) |
| JsValues.LooseEqualsSymmetric | components/GameRuntime.tsx:354 | loose equality on rule literals and variable values is symmetric |
| JsValues.CompareNumbers | components/GameRuntime.tsx:354-358 | on two numbers each operator "=", ">", "<", ">=", "<=" is the comparison it names |
| JsValues.StrLessStrict | components/GameRuntime.tsx:355-358 | string `<` is irreflexive and never holds both ways |
| JsValues.StrLessTotal | components/GameRuntime.tsx:355-358 | of two different strings one is less than the other |
| JsValues.GreaterEqIsGreaterOrEqual | components/GameRuntime.tsx:357 | on strings `>=` holds exactly when `>` holds or the strings are equal |
| JsValues.UndefinedIncomparable | components/GameRuntime.tsx:352 | an undefined value never satisfies an ordering operator, on either side |
| Grid.Round | utils/grid.ts:3 | Math.round gives the integer within half of x, ties upward |
| Grid.RoundOfInteger | utils/grid.ts:3 | rounding an integer gives it back |
| Grid.SnapIsMultiple | utils/grid.ts:2-4 | a snapped value is a whole number of grid cells |
| Grid.SnapIdempotent | utils/grid.ts:2-4 | snapping a snapped value changes nothing |
| Grid.SnapWithinHalfCell | utils/grid.ts:2-4 | with a positive grid the snapped value lies within half a cell of the value, ties upward |
| Grid.SnapWithinHalfCellNegative | utils/grid.ts:2-4 | with a negative grid the bound holds with the tie going downward |
| Grid.SnapRotationSpec | utils/grid.ts:6-9 | a non-positive snap angle leaves the angle alone; a positive one snaps it to a multiple of the angle within half a step |
| RenderUtils.ToScreenCoords | utils/renderUtils.ts:4-17 | side and top-down views draw at world coordinates; the isometric view draws at x - y shifted right by 400 and at half of x + y |
| RenderUtils.IsoRoundTrip | utils/renderUtils.ts:11-14 | the isometric projection loses nothing: world to screen to world is the identity |
| RenderUtils.IsoRoundTripScreen | utils/renderUtils.ts:11-14 | screen to world to screen is the identity too |
| RenderUtils.GetZIndex | utils/renderUtils.ts:19-25 | side views draw at a flat depth of 10; the other views at the floor of the bottom edge |
| RenderUtils.ZIndexMonotone | utils/renderUtils.ts:19-25 | an object lower on screen never gets a smaller depth |
| VarActions.MapToMainAction | components/EventSheet.tsx:56-61 | object-variable actions map to their global twins and nothing else changes; the result is a variable action exactly when the input is |
| VarActions.ConstructVarActionType | components/EventSheet.tsx:69-72 | every scope and operation encode to a variable action |
| VarActions.MapToMainActionIdempotent | components/EventSheet.tsx:56-67 | mapping twice is mapping once; it keeps the operation and makes the scope GLOBAL |
| VarActions.ScopeOfVarActions | components/EventSheet.tsx:63-67 | the scope is OBJECT exactly for the OBJ_VAR actions; any other action decodes to GLOBAL/SET |
| VarActions.VarActionRoundTrip | components/EventSheet.tsx:63-72 | decoding a variable action into scope and operation and encoding them back gives the action |
| VarActions.VarActionStateRoundTrip | components/EventSheet.tsx:63-72 | encoding a scope and operation and decoding gives them back |
| VarActions.SelectorsAreIndependent | components/EventSheet.tsx:63-72 | changing the scope keeps the operation, changing the operation keeps the scope, and reselecting the current scope changes nothing |
| RuntimeObjects.HpIndex | components/GameRuntime.tsx:63 | the position of the first variable whose name lower-cases to "hp", or the table size when there is none |
| RuntimeObjects.MaxHpOf | components/GameRuntime.tsx:60-67 | maxHp is 100 without an hp variable, and otherwise the first hp variable's value when that is a number |
| RuntimeObjects.CreateRuntimeObjectFromPrefab | components/GameRuntime.tsx:59-89 | a live object copies the template except its id and prefab flag, starts at rest, anchors its patrol at the template position, and points back to the template only when that is a prefab |
| RuntimeObjects.IntersectionIsIntervalOverlap | components/GameRuntime.tsx:24-29 | two rectangles intersect exactly when their closed x and y intervals both overlap; the test is symmetric |
| Pooling.ParkedNew | utils/ObjectPool.ts:40-45 | preAllocate pushes factory-made entries, inactive and moved off-world |
| Pooling.PreAllocateSpec | utils/ObjectPool.ts:31-46 | a pool ends with max(old size, count) entries: the old ones in place, then new parked ones; other pools are untouched |
| Pooling.FirstInactive | utils/ObjectPool.ts:54 | the first inactive entry, every earlier one being active |
| Pooling.GetReusesFirstInactive | utils/ObjectPool.ts:48-60 | with an inactive entry available, get hands out the first one, reset and active, in place, without growing the pool |
| Pooling.GetGrowsByOne | utils/ObjectPool.ts:48-66 | with every entry active, get appends exactly one new active object and hands it out |
| Pooling.ResetMatchesCreate | utils/ObjectPool.ts:78-101 | a reused entry starts like a fresh one: at rest, with the template's variables, patrol speeds and animation, under a new id |
| Pooling.ResetMaxHpAgreesOnLowerCaseKey | utils/ObjectPool.ts:93-97 | reset and creation agree on maxHp when the first hp variable is spelled "hp" |
| Pooling.ResetIgnoresUpperCaseHp | utils/ObjectPool.ts:93-97 | they disagree for a template whose only hit points are under "HP": creation reads 50, reset falls back to 100 |
| Pooling.IndexOfId | utils/ObjectPool.ts:68-76 | the first entry with the id, or the pool size |
| Pooling.ReturnObjectSpec | utils/ObjectPool.ts:68-76 | handing back an object without a prefab changes nothing; otherwise its entry is parked (inactive, off-world, at rest) and nothing else changes |
| Pooling.PreAllocateKeepsInvariants | utils/ObjectPool.ts:31-46 | preAllocate keeps every inactive entry off-world and shrinks no pool |
| Pooling.GetKeepsInvariants | utils/ObjectPool.ts:48-66 | get keeps every inactive entry off-world and shrinks no pool |
| Pooling.ReturnKeepsInvariants | utils/ObjectPool.ts:68-76 | returnObject keeps every inactive entry off-world |
| Pooling.ClearEmpties | utils/ObjectPool.ts:27-29 | after clear every prefab's pool is empty |
| Pooling.ObjectPool.Clear | utils/ObjectPool.ts:27-29 | the pool map becomes empty |
| Pooling.ObjectPool.PreAllocate | utils/ObjectPool.ts:31-46 | the loop computes the preAllocate state and keeps parked entries off-world |
| Pooling.ObjectPool.Get | utils/ObjectPool.ts:48-66 | the method computes the get state and result and keeps parked entries off-world |
| Pooling.ObjectPool.ReturnObject | utils/ObjectPool.ts:68-76 | the method computes the returnObject state and keeps parked entries off-world |
| Rules.FrameScaleSpec | components/GameRuntime.tsx:280-292 | a hit-stop outlasting the frame freezes it (scale 0); otherwise the physics scale is the frame length over 16.67 ms, capped at 4, and the timer only counts down |
| Rules.StepTimers | components/GameRuntime.tsx:309-323 | stepping timers keeps the id and marks the object expired exactly when its lifetime runs out |
| Rules.CountDownSpec | components/GameRuntime.tsx:312-315 | a running invincibility timer shrinks by the frame and stops at 0; a stopped one stays |
| Rules.StepLifetimeSpec | components/GameRuntime.tsx:316-322 | a numeric lifetime shrinks by the frame unless the frame is frozen, and runs out when it reaches 0 |
| Rules.StepTimersIsLocal | components/GameRuntime.tsx:309-323 | only the invincibility timer and the lifetime variable change |
| Rules.MissingVariableReadsZero | components/GameRuntime.tsx:336 | a condition on a missing global variable behaves as on one holding 0 |
| Rules.VarConditionsCompareNumbers | components/GameRuntime.tsx:335-340 | VAR_EQUALS, VAR_GT and VAR_LT with a number hold exactly when the variable compares that way |
| Rules.ObjVarCompareWitness | components/GameRuntime.tsx:341-362 | one object of the target type whose variable satisfies the comparison makes OBJ_VAR_COMPARE hold |
| Rules.CooldownWindow | components/GameRuntime.tsx:367-378 | after firing at t a rule with a cooldown fires again at t' exactly when t' - t reaches the cooldown; other rules' records are kept |
| Rules.ApplyVarActionSpec | components/GameRuntime.tsx:386-395 | VAR_SET assigns, VAR_ADD and VAR_SUB add and subtract from the current value (0 when missing), and no other variable changes |
| Rules.AddToMissingVariable | components/GameRuntime.tsx:389-391 | adding to a missing variable starts it from 0 |
| Rules.Current | components/GameRuntime.tsx:202-206 | the value read after initialisation is what the initialised table holds |
| Rules.HpDamageWhileInvincible | components/GameRuntime.tsx:207-208 | hp damage during invincibility changes no value and starts no hit-stop |
| Rules.HpDamageHits | components/GameRuntime.tsx:202-216 | otherwise hp damage subtracts from the current hp (maxHp when missing), starts 1.5 s of invincibility and a hit-stop |
| Rules.ObjVarSetAssigns | components/GameRuntime.tsx:218-219 | OBJ_VAR_SET assigns the operand whatever its type |
| Rules.ObjVarAddSubNeedNumbers | components/GameRuntime.tsx:220-223 | OBJ_VAR_ADD and OBJ_VAR_SUB change the value only when both sides are numbers; a missing variable starts at 0 |
| Rules.ObjectVarChangeIsLocal | components/GameRuntime.tsx:201-224 | the change touches no other variable |
| Rules.JumpOnlyWhenGrounded | components/GameRuntime.tsx:461 | a jump sets the vertical speed and clears grounded only from the ground |
| Rules.MovesScaleWithFrame | components/GameRuntime.tsx:458-463 | moves and gravity scale with the frame, so a frozen frame moves nothing |
| Rules.ReverseXTwice | components/GameRuntime.tsx:591 | reversing twice restores both horizontal speeds; each reversal nudges the object in its new direction |
| Rules.ActionFlags | components/GameRuntime.tsx:456-478 | only DESTROY marks for recycling, only hp damage starts a hit-stop, and only object-variable actions touch variables |
| Rules.SetAnimationSpec | components/GameRuntime.tsx:464-468 | SET_ANIMATION with a non-empty name the object has and is not playing switches to it and restarts it from frame 0 with the timer at 0; any other request changes nothing |
| Rules.SpawnAtMostOncePerWindow | components/GameRuntime.tsx:408-414 | a source with a spawn cooldown that spawns at t spawns again at t' exactly when the cooldown has passed |
| Rules.SpawnGateRefusalChangesNothing | components/GameRuntime.tsx:409-414 | a held-back source is not changed, and passing the gate only stamps the spawn time |
| Rules.SpawnedCentre | components/GameRuntime.tsx:165-199 | a spawned object sits at the source's centre plus the offset; outside the top-down view its patrol is anchored there |
| Physics.FloorClampSpec | components/GameRuntime.tsx:537-544 | a gravity-bound object never ends below the floor at 400; when clamped it lands grounded with no vertical speed |
| Physics.ResolveAxis | components/GameRuntime.tsx:547-560 | an object never resolves against itself; it moves along x only when the x overlap is smaller, otherwise along y |
| Physics.ResolveXTouches | components/GameRuntime.tsx:550-553 | after horizontal resolution the two rectangles just touch |
| Physics.ResolveYTouches | components/GameRuntime.tsx:551-556 | after vertical resolution they just touch, and landing on top grounds the object |
| Physics.PatrolTurnsBack | components/GameRuntime.tsx:516-532 | a looping patrol past its range turns back; one behind its anchor turns forward |
| Physics.NoPatrolNoMove | components/GameRuntime.tsx:516 | without an enabled patrol nothing moves |
| Physics.MoveBodyKeepsIdentity | components/GameRuntime.tsx:512-545 | movement never changes id, type, size, flags or variables |
| Physics.PatrolKeepsIdentity | components/GameRuntime.tsx:516-532 | a patrol step changes only position and patrol velocity |
| Physics.ResolveKeepsIdentity | components/GameRuntime.tsx:547-558 | pushing out of one solid keeps id, type, size, flags and variables |
| Physics.ResolveAllKeepsIdentity | components/GameRuntime.tsx:546-560 | resolving against any solids keeps them too |
| Animations.FindAnim | components/GameRuntime.tsx:633 | the first animation with the name, or the list size |
| Animations.FindRunOrWalk | components/GameRuntime.tsx:627 | the first animation named Run or Walk, or the list size |
| Animations.SwitchForMotionKeepsFrameInRange | components/GameRuntime.tsx:625-632 | switching for motion keeps the frame index inside the current animation |
| Animations.AdvanceFrameKeepsFrameInRange | components/GameRuntime.tsx:633-645 | advancing keeps the frame index inside the current animation |
| Animations.StepAnimationKeepsFrameInRange | components/GameRuntime.tsx:622-646 | a whole animation step keeps the frame index in range |
| Animations.CreatedFrameInRange | components/GameRuntime.tsx:76 | a new live object starts in range |
| Animations.AdvanceAtLastFrame | components/GameRuntime.tsx:637-643 | past the last frame a looping animation wraps to 0 and a one-shot one stays on its last frame |
| Animations.MotionSwitches | components/GameRuntime.tsx:625-632 | a moving idle object switches to its first Run or Walk; a still running one switches back to Idle |
| Animations.SwitchForMotionIsLocal | components/GameRuntime.tsx:625-632 | switching leaves identity, position, motion and variables alone |
| Animations.AdvanceFrameIsLocal | components/GameRuntime.tsx:633-645 | advancing leaves them alone |
| Animations.StepAnimationIsLocal | components/GameRuntime.tsx:622-646 | animation never changes an object's identity, position, motion or variables |
| SceneLoading.Overlay | components/GameRuntime.tsx:105-109 | writing variables' initial values adds exactly their ids to the map's keys |
| SceneLoading.OverlaySpec | components/GameRuntime.tsx:107-109 | every key not named keeps its value, and a named id gets the initial value of its last occurrence |
| SceneLoading.KeepGlobalsSpec | components/GameRuntime.tsx:103-109 | keeping globals, every earlier value survives unless the scene redeclares it |
| SceneLoading.FreshStartSpec | components/GameRuntime.tsx:103-109 | starting afresh, the map holds exactly the globals and the scene's variables, the scene's winning |
| SceneLoading.NonPrefabs | components/GameRuntime.tsx:122-131 | the non-prefab templates, in order |
| SceneLoading.LoadObjectsSpec | components/GameRuntime.tsx:120-131 | non-prefab templates become fresh live copies in order; prefabs go to the registry and pools of those with a pool size are filled |
| Tick.Stepped | components/GameRuntime.tsx:309-323 | stepping timers keeps the number of objects |
| Tick.Timers | components/GameRuntime.tsx:306-323 | the timers phase keeps the number of objects |
| Tick.TimersSpec | components/GameRuntime.tsx:306-323 | every object's timers are stepped once and its start position is recorded |
| Tick.ExpiredRanOut | components/GameRuntime.tsx:316-321 | only an object whose lifetime ran out this frame is marked for recycling |
| Tick.RanOutExpired | components/GameRuntime.tsx:316-321 | every object whose lifetime ran out this frame is marked |
| Tick.SpawnOne | components/GameRuntime.tsx:406-424 | spawning from one source keeps the live objects, by id, in place |
| Tick.TargetOne | components/GameRuntime.tsx:428-480 | acting on one target keeps the pools, ids, spawns and cooldowns and the objects' ids |
| Tick.Fire | components/GameRuntime.tsx:375-396 | the parts of a firing rule that visit no object change no object |
| Tick.Solids | components/GameRuntime.tsx:508 | the solids are exactly the objects with collision not marked for recycling |
| Tick.PhysicsStep | components/GameRuntime.tsx:511-561 | the physics of one object keeps its id |
| Tick.CollisionAction | components/GameRuntime.tsx:577-607 | a collision action keeps the pools, counters and the objects' ids |
| Tick.Pair | components/GameRuntime.tsx:573-608 | one pair keeps them too |
| Tick.Survivors | components/GameRuntime.tsx:649-656 | the survivors are never more than the objects |
| TickProperties.TimersKeepIds | components/GameRuntime.tsx:309-323 | the timers phase keeps every object, by id, in its place |
| TickProperties.SpawnFromKeepsIds | components/GameRuntime.tsx:398-426 | spawning keeps the live objects by id; spawns wait in a separate list |
| TickProperties.TargetAllKeepsIds | components/GameRuntime.tsx:428-480 | a rule's actions keep the objects by id |
| TickProperties.RunRulesKeepIds | components/GameRuntime.tsx:326-483 | the rules phase keeps the objects by id |
| TickProperties.RotateAllKeepsIds | components/GameRuntime.tsx:490-505 | auto-rotation keeps them |
| TickProperties.PhysicsAllKeepsIds | components/GameRuntime.tsx:507-562 | physics keeps them |
| TickProperties.PairsWithKeepsIds | components/GameRuntime.tsx:574-609 | one subject's collisions keep them |
| TickProperties.SubjectsKeepIds | components/GameRuntime.tsx:573-610 | every subject's collisions keep them |
| TickProperties.CollideAllKeepsIds | components/GameRuntime.tsx:565-612 | the collision phase keeps them |
| TickProperties.AnimateAllKeepsIds | components/GameRuntime.tsx:621-646 | animation keeps them |
| TickProperties.AfterRulesKeepsIds | components/GameRuntime.tsx:306-483 | timers and rules together keep them |
| TickProperties.AfterCollisionsKeepsIds | components/GameRuntime.tsx:490-612 | rotation, physics and collisions together keep them |
| TickProperties.MissingPrefabSpawnsNothing | components/GameRuntime.tsx:166-167 | a prefab the registry does not hold spawns nothing and changes nothing |
| TickProperties.SpawnFromKeepsPools | components/GameRuntime.tsx:419 | spawning shrinks no pool and keeps inactive entries off-world |
| TickProperties.RunRulesKeepsPools | components/GameRuntime.tsx:326-483 | so does the whole rules phase |
| TickProperties.SelfAndOther | components/GameRuntime.tsx:580-585 | SELF names the subject and OTHER the target, whatever their types |
| TickProperties.SelfPairsSkipped | components/GameRuntime.tsx:575 | an object is never paired with itself |
| TickProperties.DestroyMarksOne | components/GameRuntime.tsx:586-590 | a DESTROY collision rule marks exactly the subject, the target or both, as its target names |
| TickProperties.SurvivorsSpec | components/GameRuntime.tsx:649-656 | the survivors are exactly the objects not marked for recycling |
| TickProperties.IndexOfIdSameIds | utils/ObjectPool.ts:68-76 | pools with the same ids in the same places find the same entry |
| TickProperties.ReturnedKeepsSlots | utils/ObjectPool.ts:68-76 | one returnObject keeps every pool's slots and ids and wakes no entry |
| TickProperties.ReturnAllSpec | components/GameRuntime.tsx:649-656 | handing back the recycled objects keeps the slots and parks each recycled pooled object's entry |
| TickProperties.SwitchKeepsLiveList | components/GameRuntime.tsx:485-488 | a frame that switches scene keeps the live list as the rules left it |
| TickProperties.ReapedSpec | components/GameRuntime.tsx:648-660 | the end of a frame is the survivors, none of them marked, followed by the new spawns |
| TickProperties.EndOfTick | components/GameRuntime.tsx:294-661 | a frame that does not switch scene ends with the survivors followed by the spawns |
| TickProperties.TickKeepsPools | components/GameRuntime.tsx:294-661 | over a whole frame no pool loses an entry and inactive entries stay off-world |
| Play.StepAllTimers | components/GameRuntime.tsx:306-323 | the loop computes the timers phase |
| Play.SpawnStep | components/GameRuntime.tsx:399-425 | one source's spawn, taking the object from the pool object, as the fold states it |
| Play.SpawnAll | components/GameRuntime.tsx:398-426 | the loop computes spawning and leaves the pool object holding the new pools |
| Play.TargetStep | components/GameRuntime.tsx:428-480 | the rule's action on one object, when it is a target, as the fold states it |
| Play.ApplyToTargets | components/GameRuntime.tsx:428-480 | the loop computes a rule's effect on its targets |
| Play.RunOneRule | components/GameRuntime.tsx:326-483 | one rule, as the fold states it |
| Play.RunAllRules | components/GameRuntime.tsx:326-484 | the loop computes every rule in order |
| Play.RotatePlayers | components/GameRuntime.tsx:490-505 | the loop computes auto-rotation |
| Play.ResolveAgainst | components/GameRuntime.tsx:547-560 | the loop computes the resolution against each solid in turn |
| Play.MoveAll | components/GameRuntime.tsx:507-562 | the loop computes physics |
| Play.PairsFrom | components/GameRuntime.tsx:573-608 | the inner loop computes one subject against every object |
| Play.AllSubjects | components/GameRuntime.tsx:573-608 | the outer loop computes every subject of one collision rule |
| Play.CollideRules | components/GameRuntime.tsx:565-612 | the nested loops compute every collision rule over every pair |
| Play.AnimateLive | components/GameRuntime.tsx:621-646 | the loop computes animation |
| Play.RulesPhase | components/GameRuntime.tsx:298-484 | timers then rules, and the starting positions the rotation reads |
| Play.CollisionsPhase | components/GameRuntime.tsx:490-612 | rotation in the top-down view, then physics and collision rules unless frozen |
| Play.ReapPhase | components/GameRuntime.tsx:620-660 | animation, then the survivors followed by the spawns, the pool object holding the returned objects |
| Play.TickPhases | components/GameRuntime.tsx:298-660 | the phases in order compute the tick, a pending switch ending it early; entries parked off-world stay off-world |
| Play.Reap | components/GameRuntime.tsx:648-660 | the result is the survivors followed by the spawns, and the pools hold the returned objects |
| Play.OverlayVars | components/GameRuntime.tsx:105-109 | the loop computes the variable overlay |
| Play.StartingVars | components/GameRuntime.tsx:103-109 | the variables a scene starts with |
| Play.LoadTemplates | components/GameRuntime.tsx:120-131 | the loop registers prefabs, fills pools and makes the live objects, keeping parked entries off-world |
| Play.ViewOf | components/GameRuntime.tsx:56-57 | the view of an unknown scene, or of one without a view, is SIDE |
| Play.Runtime.constructor | components/GameRuntime.tsx:226-234 | play starts with the globals at their initial values and the editor's current scene loaded, keeping them |
| Play.Runtime.LoadScene | components/GameRuntime.tsx:91-140 | an unknown scene changes nothing; otherwise the scene's objects, registry, pools and variables replace the old, cooldowns and hit-stop are reset |
| Play.Runtime.Tick | components/GameRuntime.tsx:279-661 | one frame: the new state is the tick of the rule scene from the old state, or only the clock when that scene is gone; the prefab registry and active scene stay |
| Store.IndexOf | store.ts:148 | findIndex: -1 exactly when no entry has the id, otherwise the first entry with it |
| Store.Without | store.ts:224 | filter keeps exactly the entries without the id; it shortens the list exactly when one has the id |
| Store.Patched | store.ts:206 | map-with-spread patches the entries with the id and keeps the others |
| Store.WithoutConcat | store.ts:224 | filtering distributes over concatenation, so it keeps order |
| Store.WithoutIdempotent | store.ts:224 | filtering twice is filtering once |
| Store.CurrentIndex | store.ts:148-149 | the index of the current scene, -1 when it is missing |
| Store.EditCurrent | store.ts:147-231 | without a current scene nothing changes; otherwise only that scene is replaced, and only the scene list |
| Store.InheritedView | store.ts:116 | a new scene takes the current scene's view, SIDE when there is none |
| Store.FirstSceneFound | store.ts:116 | find and findIndex agree on the first scene with an id |
| Store.AddScene | store.ts:111-125 | an empty scene named after the new scene count, with the inherited view, is appended and becomes current |
| Store.DeleteScene | store.ts:127-134 | with one scene nothing happens; otherwise the scenes with the id go, order kept, and deleting the current scene makes the first remaining one current |
| Store.UpdateScene | store.ts:142-144 | the scenes with the id are patched, the rest and the other state kept |
| Store.AddSceneKeepsWellFormed | store.ts:111-125 | adding keeps scene ids distinct and leaves a current scene |
| Store.DeleteSceneKeepsCurrent | store.ts:127-134 | deleting never loses the current scene nor empties the project |
| Store.AddThenDeleteScene | store.ts:111-134 | deleting the scene just added restores the scene list |
| Store.CountOfType | store.ts:163 | the count of objects of a type is at most the object count |
| Store.NewObject | store.ts:152-190 | a new object is numbered one past its type's count, takes its type's default size, and takes gravity from the view (never for tiles), collision always, and a disabled patrol |
| Store.AddObject | store.ts:147-199 | without a current scene nothing changes; otherwise the object, with the caller's props over the defaults, is appended to the current scene and selected |
| Store.AddObjectCountsType | store.ts:163-168 | adding an object raises its type's count by one and no other type's |
| Store.UpdateObject | store.ts:201-212 | only the current scene's objects with the id are patched, in place |
| Store.DeleteObject | store.ts:216-231 | the current scene's objects with the id go; the selection is cleared only when it was that id |
| Store.DeleteObjectIdempotent | store.ts:216-231 | deleting twice is deleting once |
| Store.AddThenDeleteObject | store.ts:147-231 | deleting the object just added restores the scene's objects |
| Store.AddEvent | store.ts:252-270 | the default rule (always: move Player by 0 along x) is appended to the current scene under a new id |
| Store.InsertAfter | store.ts:289-291 | splice after j puts the element at j + 1 and shifts the rest |
| Store.DuplicateEvent | store.ts:272-297 | a copy of the first rule with the id, under a new id, is inserted right after it; an unknown id changes nothing |
| Store.InsertThenRemove | store.ts:289-291 | removing an inserted element whose id is new restores the list |
| Store.DuplicateThenDeleteCopy | store.ts:272-323 | deleting the copy just made restores the scene list |
| Store.UpdateEvent | store.ts:299-310 | only the current scene's rules with the id are patched |
| Store.DeleteEvent | store.ts:312-323 | the current scene's rules with the id go, order kept |
| Store.AddVariable | store.ts:325-346 | a variable "NewVariable" at 0 is appended to the globals or, for scene scope, to the current scene |
| Store.UpdateVariable | store.ts:348-367 | a global id patches only the global list; any other id patches the current scene's variables |
| Store.DeleteVariable | store.ts:369-387 | a global id is removed from the globals only; any other id from the current scene |
| Store.AddThenDeleteGlobal | store.ts:325-387 | deleting the global just added restores the global list |
| Store.LoadProject | store.ts:436-458 | saved scenes are taken as they are; old single-scene data becomes one scene "Scene 1"; the first scene becomes current; no data for scenes at all is refused |
| Store.LoadProjectHasCurrentScene | store.ts:436-458 | a successful load always leaves a current scene to edit |
| Projects.Remap | store.ts:525-532 | a reference the table binds to a non-empty id is rewritten; an unbound one is kept |
| Projects.TableLastWrite | store.ts:492 | a key is bound to its last write |
| Projects.TableUnwritten | store.ts:500 | a key never written is unbound |
| Projects.GlobalsOf | store.ts:487-489 | the globals get consecutive new ids and global scope |
| Projects.GlobalsOfSpec | store.ts:487-489 | exactly the global-scoped drafts become globals, with their names and initial values |
| Projects.VarNamePairs | store.ts:492 | one name-to-id write per global |
| Projects.ObjectNamePairs | store.ts:495-500 | one name-to-id write per starter object |
| Projects.CompleteObject | store.ts:498-518 | a starter object gets its new id; an absent name, type or size gets a default; an absent patrol gets a disabled one |
| Projects.CompleteEvent | store.ts:522-549 | a starter rule gets its new id, the default condition and action types, and its variable and prefab references rewritten through the name tables |
| Projects.CollectGlobals | store.ts:487-489 | the loop computes the globals |
| Projects.NameGlobals | store.ts:491-492 | the loop builds the variable-name table |
| Projects.BuildStarterObjects | store.ts:495-519 | the loop builds the objects and the object-name table |
| Projects.BuildStarterEvents | store.ts:522-550 | the loop builds the rules |
| Projects.CreateProjectFromGenre | store.ts:483-571 | the passes build the one-scene project "Level 1" with the preset's view and grid, the globals, objects and rules |
| Projects.GenreVariableRefsResolve | store.ts:524-528 | a preset rule naming a global refers, in the project, to that global's new id |
| Projects.GenreUnknownVariableRefsKept | store.ts:524-528 | a reference that names no global is kept as written |
| Projects.GenrePrefabRefsResolve | store.ts:531-532 | a CREATE_OBJECT rule naming the last starter object of that name spawns that object's new id |
| Projects.GenreIdsFresh | store.ts:483-571 | the project's globals, objects, rules and scene all get distinct new ids |
| Projects.VarIdPairs | store.ts:603-607 | one old-id-to-new-id write per template variable |
| Projects.RemapEvent | store.ts:614-630 | a template rule gets a new id and only its variable references rewritten |
| Projects.CopyVariables | store.ts:601-607 | the loop renumbers the variables and builds the id table |
| Projects.CopyObjects | store.ts:609-612 | the loop renumbers the objects |
| Projects.CopyEvents | store.ts:614-630 | the loop renumbers the rules and remaps their variable references |
| Projects.CreateProjectFromCustomTemplate | store.ts:600-650 | the passes build the one-scene project "Level 1" with the template's view and grid |
| Projects.TemplateRefsFollowVariables | store.ts:616-623 | a rule that referred to a template variable refers to that variable's copy |
| Projects.TemplatePrefabRefsDangle | store.ts:609-623 | object ids are renumbered but a rule's prefab reference is copied unchanged, so a spawner that named a template object names no object of the new project |
| Projects.TemplateOtherRefsKept | store.ts:616-623 | a reference to no template variable is kept |
| AiGenerator.ViewOf | utils/aiGenerator.ts:9-16 | top-down words give TOP_DOWN; otherwise isometric words give ISO; otherwise SIDE |
| AiGenerator.Rule | utils/aiGenerator.ts:40-78 | a generated rule carries its id and its shape |
| AiGenerator.FindVariable | utils/aiGenerator.ts:147 | find by name: a result is a listed variable with the name; None when none has it |
| AiGenerator.FindVariableFirst | utils/aiGenerator.ts:147 | the variable found is the one at the first index with the name |
| AiGenerator.Rules | utils/aiGenerator.ts:40-78 | rules pushed in order get consecutive ids and the given shapes |
| AiGenerator.MovementPhase | utils/aiGenerator.ts:38-78 | movement pushes four rules and no variable |
| AiGenerator.PushMovement | utils/aiGenerator.ts:38-78 | the pushes build the movement phase |
| AiGenerator.PushHealth | utils/aiGenerator.ts:82-92 | the health step gives the player 100 hp and, for lives, a Lives global |
| AiGenerator.PushScore | utils/aiGenerator.ts:94-97 | the score step adds a Score global |
| AiGenerator.PushEnemy | utils/aiGenerator.ts:99-131 | the enemy step adds the enemy and its rule, which depends on the player's hp |
| AiGenerator.PushCoin | utils/aiGenerator.ts:133-160 | the coin step adds the coin and, when Score is found, its two rules |
| AiGenerator.AsksOf | utils/aiGenerator.ts:12-134 | the answers to the keyword tests; a prompt mentioning lives asks for health, and one mentioning coins or collecting asks for a score |
| AiGenerator.GenerateGameFromPrompt | utils/aiGenerator.ts:5-175 | the generator returns the template the phases describe for the answers to the prompt's keyword tests |
| AiGenerator.FourRules | utils/aiGenerator.ts:40-77 | four rules pushed one by one are the rules at four consecutive ids |
| AiGenerator.MovementShapes | utils/aiGenerator.ts:38-78 | movement adds only walls, the side view's ground first, and rules that are not about collisions and name no coin |
| AiGenerator.GlobalsStep | utils/aiGenerator.ts:82-97 | the health and score steps add no object and no rule; a score request leaves a findable Score global |
| AiGenerator.EnemyKeeps | utils/aiGenerator.ts:99-131 | the enemy step keeps the globals and only appends objects and rules |
| AiGenerator.EnemyAdds | utils/aiGenerator.ts:99-131 | the enemy step appends only an Enemy and a rule about enemies, and does append them when enemies are asked for |
| AiGenerator.CoinKeeps | utils/aiGenerator.ts:133-160 | the coin step keeps the globals and only appends objects and rules |
| AiGenerator.CoinAdds | utils/aiGenerator.ts:133-160 | the coin step appends only a Coin, and, when Score is found, the scoring rule for that Score and the removal rule; nothing without a coin request |
| AiGenerator.PlayerHp | utils/aiGenerator.ts:83-86 | the player has hp 100 exactly when health is asked for, and no hp otherwise |
| AiGenerator.PlayerPiece | utils/aiGenerator.ts:24-36 | the player is a solid Player that falls exactly in a side view |
| AiGenerator.NoPlayerBeforeLast | utils/aiGenerator.ts:24-160 | nothing pushed before the player is a Player |
| AiGenerator.PlayerIsLast | utils/aiGenerator.ts:24-36 | the player is the last object and the only Player; it falls only in a side view and has 100 hp exactly when health is asked for |
| AiGenerator.MovementAssembled | utils/aiGenerator.ts:38-160 | later steps keep the movement rules as the first four and the ground as the first object |
| AiGenerator.MovementFirst | utils/aiGenerator.ts:38-78 | the first four rules are the view's movement set; a side view gets a ground first |
| AiGenerator.GlobalsAssembled | utils/aiGenerator.ts:82-97 | a Lives global at 3 exists exactly when lives are asked for, a Score global at 0 exactly when a score is; at most two globals |
| AiGenerator.GlobalsAsked | utils/aiGenerator.ts:10-97 | the same for the template, whose grid is always 32 |
| AiGenerator.EnemyAssembled | utils/aiGenerator.ts:99-131 | an enemy request puts its rule fifth and an Enemy among the objects; without it there is no Enemy |
| AiGenerator.EnemyRule | utils/aiGenerator.ts:99-131 | an enemy request adds an Enemy and, as fifth rule, its touch costs the player 10 hp when health is asked for and destroys the player otherwise; without the request there is no Enemy |
| AiGenerator.CoinAssembled | utils/aiGenerator.ts:133-160 | a coin request with a Score global ends the rules with the two coin rules and the objects with the coin |
| AiGenerator.CoinRulesScore | utils/aiGenerator.ts:133-160 | a coin request always finds Score, so its last two rules add to that Score on touching a coin and remove the coin, and a Coin exists |
| AiGenerator.NoCoinsAssembled | utils/aiGenerator.ts:133-160 | without a coin request no object is a coin and no rule names coins |
| AiGenerator.NoCoinsUnasked | utils/aiGenerator.ts:133-160 | without coin words there is no coin and no rule about coins |

## Left out

- Rendering: the canvas pipeline, backgrounds, lighting, shadows, tiles, the image cache and the HUD. None of it changes the simulation state.
- Particles, screen effects and audio: `emitParticles`, `bgmSystem` and `audioSystem`, including PLAY_SOUND. They are output only.
- The React wiring of GameRuntime: `useState`, `setHudVariables`, `requestAnimationFrame`, the keyboard and mouse listeners and `keysPressed.clear()`. Held keys are a parameter of the tick.
- Play.Runtime.Tick: returns the scene a frame asks to switch to instead of scheduling `loadScene(id, true)` with a timeout; the caller loads it with `Play.Runtime.LoadScene`.
- Play.Runtime.Tick: `Math.cos`, `Math.sin` and `Math.atan2` are parameters, and `performance.now()` read inside the spawn loop is one parameter per frame.
- Play.Runtime.Tick: the rules run are those of the scene active when play started, as the source's frame closure does; the model does not correct this.
- Rules.ApplyVarActionSpec: the global-variable table holds numbers only, and `Rules.Operand` reads a string operand as 0 and a boolean as 1 or 0 for all three actions. The source's `(value as number) || 0` keeps a truthy non-number as it is: VAR_SET stores the string or `true` itself; VAR_ADD joins a string to the current value as text (`"3"` on 5 gives `"53"`) and adds `true` as 1; VAR_SUB converts a string to a number (`"3"` subtracts 3, `"abc"` gives NaN) and subtracts `true` as 1. Stored strings and booleans, text joining and string conversion are not modelled; an empty string and `false` give 0 in both.
- JsValues.LooseEquals: string-to-number coercion in `==` and relational comparisons of a string with a number are not modelled.
- Text.Lower: only ASCII letters are folded by `toLowerCase`.
- JsRecord.Keys: keys are kept in insertion order; JavaScript's ordering of integer-like keys first is not modelled.
- Projects.Remap: lookups of keys inherited from `Object.prototype` (such as "constructor") in the name tables are not modelled.
- Ids: `uuidv4()` is a counter, so fresh ids are distinct from each other; authored ids are `Named` and never collide with them.
- Store.LoadProject: data with neither scenes nor objects leaves the store without a scene list in the source; the model reports this as `None`. Loading an empty scene list throws in the source, so the model leaves the state unchanged.
- Store.DeleteScene: when the current scene is deleted and no scene is left, the source throws, so the model leaves the state unchanged.
- The store's assets, tilesets, lights, ambient light, tile brush and grid-display settings, and the actions on them (`addAsset`, `addTileset`, `addLight`, `toggleGrid`, ...), are not part of this model. So are `setCurrentScene`, `renameScene`, `selectObject`, `setMode`, `loadTemplate` and `saveProjectAsTemplate`.
- The contents of the genre presets and built-in templates (utils/genrePresets.ts, templates.ts) are data. The model takes any preset or template as input.
- A custom template's name, description and creation time (`Date.now()`), and the generated template's colours, are not represented.
- exportGame, templateStorage and the persistence middleware are not part of this model.
