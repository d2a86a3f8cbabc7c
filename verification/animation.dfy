/**
 * Frame cycling of sprite animations (components/GameRuntime.tsx, lines
 * 622-646): switching between idle and run/walk by motion, and advancing the
 * current animation's frame by elapsed time.
 */
module Animations {
  import opened Wrappers
  import opened Types
  import opened RuntimeObjects
  import opened Rules

  /** `anims.find(a => a.name === name)`, as an index (|anims| when none). */
  function FindAnim(anims: seq<Animation>, name: string): (i: nat)
    ensures i <= |anims|
    ensures i < |anims| ==> anims[i].name == name
    ensures forall j :: 0 <= j < i ==> anims[j].name != name
  {
    if anims == [] then 0 else if anims[0].name == name then 0 else 1 + FindAnim(anims[1..], name)
  }

  /** `anims.find(a => a.name === 'Run' || a.name === 'Walk')`, as an index. */
  function FindRunOrWalk(anims: seq<Animation>): (i: nat)
    ensures i <= |anims|
    ensures i < |anims| ==> anims[i].name == "Run" || anims[i].name == "Walk"
    ensures forall j :: 0 <= j < i ==> anims[j].name != "Run" && anims[j].name != "Walk"
  {
    if anims == [] then 0
    else if anims[0].name == "Run" || anims[0].name == "Walk" then 0
    else 1 + FindRunOrWalk(anims[1..])
  }

  /** The index of the object's current animation, |animations| when it has none. */
  function CurrentIndex(o: RuntimeObject): nat {
    if o.currentAnimation.Some? then FindAnim(o.animations, o.currentAnimation.value) else |o.animations|
  }

  predicate IsMoving(o: RuntimeObject) {
    Abs(o.vx) > 0.1 || (o.autoMove.Some? && o.autoMove.value.enabled && o.autoVx != 0.0)
  }

  /** Lines 625-632: a moving idle object switches to its run or walk
      animation, a still running or walking one back to idle. */
  function SwitchForMotion(o: RuntimeObject): RuntimeObject {
    var moving := IsMoving(o);
    if moving && o.currentAnimation == Some("Idle") then
      var k := FindRunOrWalk(o.animations);
      if k < |o.animations| then o.(currentAnimation := Some(o.animations[k].name), animFrameIndex := 0) else o
    else if !moving && (o.currentAnimation == Some("Run") || o.currentAnimation == Some("Walk")) then
      if FindAnim(o.animations, "Idle") < |o.animations| then o.(currentAnimation := Some("Idle"), animFrameIndex := 0)
      else o
    else o
  }

  /** Lines 633-645: accumulate the frame's time and, once it reaches one
      frame's duration (1000 / fps ms; never at 0 fps), move to the next frame,
      wrapping to the first when looping and holding the last otherwise. */
  function AdvanceFrame(o: RuntimeObject, dtMs: real, effect: real): RuntimeObject {
    var k := CurrentIndex(o);
    if k < |o.animations| && |o.animations[k].frameAssetIds| > 0 then
      var a := o.animations[k];
      var n := |a.frameAssetIds|;
      var timer := o.animTimer + dtMs * effect;
      if a.fps != 0.0 && timer >= 1000.0 / a.fps then
        var idx := o.animFrameIndex + 1;
        o.(animTimer := timer - 1000.0 / a.fps,
           animFrameIndex := if idx >= n then (if a.loop then 0 else n - 1) else idx)
      else o.(animTimer := timer)
    else o
  }

  /** Lines 624-645 for one object. */
  function StepAnimation(o: RuntimeObject, dtMs: real, effect: real): RuntimeObject {
    if |o.animations| == 0 then o else AdvanceFrame(SwitchForMotion(o), dtMs, effect)
  }

  /** The frame index points into the current animation's frames, when it has any. */
  predicate FrameInRange(o: RuntimeObject) {
    && 0 <= o.animFrameIndex
    && (CurrentIndex(o) < |o.animations| && |o.animations[CurrentIndex(o)].frameAssetIds| > 0 ==>
          o.animFrameIndex < |o.animations[CurrentIndex(o)].frameAssetIds|)
  }

  lemma SwitchForMotionKeepsFrameInRange(o: RuntimeObject)
    requires FrameInRange(o)
    ensures FrameInRange(SwitchForMotion(o))
    ensures SwitchForMotion(o).animations == o.animations
  {
    var moving := IsMoving(o);
    if moving && o.currentAnimation == Some("Idle") {
      var k := FindRunOrWalk(o.animations);
      if k < |o.animations| {
        assert SwitchForMotion(o) == o.(currentAnimation := Some(o.animations[k].name), animFrameIndex := 0);
      }
    } else if !moving && (o.currentAnimation == Some("Run") || o.currentAnimation == Some("Walk")) {
      if FindAnim(o.animations, "Idle") < |o.animations| {
        assert SwitchForMotion(o) == o.(currentAnimation := Some("Idle"), animFrameIndex := 0);
      }
    }
  }

  lemma AdvanceFrameKeepsFrameInRange(o: RuntimeObject, dtMs: real, effect: real)
    requires FrameInRange(o)
    ensures FrameInRange(AdvanceFrame(o, dtMs, effect))
  {
  }

  /** Stepping an animation keeps the frame index inside its frames. */
  lemma StepAnimationKeepsFrameInRange(o: RuntimeObject, dtMs: real, effect: real)
    requires FrameInRange(o)
    ensures FrameInRange(StepAnimation(o, dtMs, effect))
  {
    if |o.animations| != 0 {
      SwitchForMotionKeepsFrameInRange(o);
      AdvanceFrameKeepsFrameInRange(SwitchForMotion(o), dtMs, effect);
    }
  }

  /** A freshly created object starts inside its animation's frames. */
  lemma CreatedFrameInRange(prefab: GameObject, id: Id)
    ensures FrameInRange(CreateRuntimeObjectFromPrefab(prefab, id))
  {
  }

  /** Advancing past the last frame wraps to the first frame when the
      animation loops and holds the last frame when it does not; an
      animation at 0 fps never advances. */
  lemma AdvanceAtLastFrame(o: RuntimeObject, dtMs: real, effect: real)
    requires CurrentIndex(o) < |o.animations|
    requires var a := o.animations[CurrentIndex(o)];
      |a.frameAssetIds| > 0 && o.animFrameIndex == |a.frameAssetIds| - 1
    ensures var a := o.animations[CurrentIndex(o)];
      var r := AdvanceFrame(o, dtMs, effect);
      && (a.fps == 0.0 ==> r.animFrameIndex == o.animFrameIndex)
      && (a.fps != 0.0 && o.animTimer + dtMs * effect >= 1000.0 / a.fps ==>
            r.animFrameIndex == (if a.loop then 0 else |a.frameAssetIds| - 1))
  {
  }

  /** A moving idle object with a run or walk animation switches to the first
      of them, from its first frame; a still runner with an idle animation
      switches to idle. */
  lemma MotionSwitches(o: RuntimeObject)
    ensures IsMoving(o) && o.currentAnimation == Some("Idle") && FindRunOrWalk(o.animations) < |o.animations| ==>
      var r := SwitchForMotion(o);
      r.currentAnimation == Some(o.animations[FindRunOrWalk(o.animations)].name) && r.animFrameIndex == 0
    ensures !IsMoving(o) && (o.currentAnimation == Some("Run") || o.currentAnimation == Some("Walk"))
            && FindAnim(o.animations, "Idle") < |o.animations| ==>
      SwitchForMotion(o).currentAnimation == Some("Idle") && SwitchForMotion(o).animFrameIndex == 0
  {
  }

  /** What animation leaves alone: identity, position, motion and variables. */
  predicate SameBody(a: RuntimeObject, b: RuntimeObject) {
    && a.id == b.id && a.otype == b.otype && a.x == b.x && a.y == b.y && a.vx == b.vx && a.vy == b.vy
    && a.variables == b.variables && a.animations == b.animations && a.originalPrefabId == b.originalPrefabId
  }

  lemma SwitchForMotionIsLocal(o: RuntimeObject)
    ensures SameBody(SwitchForMotion(o), o)
  {
    var moving := IsMoving(o);
    if moving && o.currentAnimation == Some("Idle") {
      var k := FindRunOrWalk(o.animations);
      if k < |o.animations| {
        assert SwitchForMotion(o) == o.(currentAnimation := Some(o.animations[k].name), animFrameIndex := 0);
      }
    } else if !moving && (o.currentAnimation == Some("Run") || o.currentAnimation == Some("Walk")) {
      if FindAnim(o.animations, "Idle") < |o.animations| {
        assert SwitchForMotion(o) == o.(currentAnimation := Some("Idle"), animFrameIndex := 0);
      }
    }
  }

  lemma AdvanceFrameIsLocal(o: RuntimeObject, dtMs: real, effect: real)
    ensures SameBody(AdvanceFrame(o, dtMs, effect), o)
  {
    var k := CurrentIndex(o);
    if k < |o.animations| && |o.animations[k].frameAssetIds| > 0 {
      var a := o.animations[k];
      var timer := o.animTimer + dtMs * effect;
      if a.fps != 0.0 && timer >= 1000.0 / a.fps {
        var n := |a.frameAssetIds|;
        var idx := o.animFrameIndex + 1;
        assert AdvanceFrame(o, dtMs, effect) ==
          o.(animTimer := timer - 1000.0 / a.fps,
             animFrameIndex := if idx >= n then (if a.loop then 0 else n - 1) else idx);
      } else {
        assert AdvanceFrame(o, dtMs, effect) == o.(animTimer := timer);
      }
    }
  }

  /** Animation never changes an object's identity, position, motion or variables. */
  lemma StepAnimationIsLocal(o: RuntimeObject, dtMs: real, effect: real)
    ensures SameBody(StepAnimation(o, dtMs, effect), o)
  {
    if |o.animations| != 0 {
      SwitchForMotionIsLocal(o);
      AdvanceFrameIsLocal(SwitchForMotion(o), dtMs, effect);
    }
  }
}
