/**
 * The movement of one object in one frame (components/GameRuntime.tsx,
 * lines 514-561): gravity, patrolling, integration, the floor and pushing
 * out of solid objects.
 */
module Physics {
  import opened Wrappers
  import opened Types
  import opened RuntimeObjects
  import opened Rules

  /** The floor line gravity-bound objects rest on. */
  const FloorY: real := 400.0
  /** Gravity added to `vy` per reference frame. */
  const GravityPerFrame: real := 0.5
  /** The patrol range used when an object's `range` is 0 or absent. */
  const DefaultPatrolRange: real := 200.0

  function ApplyGravity(o: RuntimeObject, physics: real): RuntimeObject {
    if o.hasGravity then o.(vy := o.vy + GravityPerFrame * physics) else o
  }

  /** Lines 523-524 (and 528-529): turn back once past the range, or behind the anchor. */
  function TurnAt(v: real, dist: real, range: real, speed: real): real {
    if v > 0.0 && dist > range then -Abs(speed)
    else if v < 0.0 && dist < 0.0 then Abs(speed)
    else v
  }

  /** Lines 516-532: an enabled patrol moves by its own velocity and, when it
      loops, turns back at the ends of its range. */
  function Patrol(o: RuntimeObject, physics: real): RuntimeObject {
    if o.autoMove.Some? && o.autoMove.value.enabled then
      var am := o.autoMove.value;
      var m := o.(x := o.x + o.autoVx * physics, y := o.y + o.autoVy * physics);
      if am.loop then
        var range := if am.range == 0.0 then DefaultPatrolRange else am.range;
        var avx := if am.speedX != 0.0 then TurnAt(m.autoVx, m.x - m.startX, range, am.speedX) else m.autoVx;
        var avy := if am.speedY != 0.0 then TurnAt(m.autoVy, m.y - m.startY, range, am.speedY) else m.autoVy;
        m.(autoVx := avx, autoVy := avy)
      else m
    else o
  }

  function Integrate(o: RuntimeObject, physics: real): RuntimeObject {
    o.(x := o.x + o.vx * physics, y := o.y + o.vy * physics)
  }

  /** Lines 537-544. */
  function FloorClamp(o: RuntimeObject): RuntimeObject {
    if o.hasGravity && o.y + o.height > FloorY then o.(y := FloorY - o.height, vy := 0.0, isGrounded := true)
    else o
  }

  /** Lines 514-544: everything before pushing out of solids. */
  function MoveBody(o: RuntimeObject, physics: real): RuntimeObject {
    FloorClamp(Integrate(Patrol(ApplyGravity(o, physics), physics), physics))
  }

  function OverlapX(o: RuntimeObject, other: RuntimeObject): real {
    (o.width + other.width) / 2.0 - Abs((o.x + o.width / 2.0) - (other.x + other.width / 2.0))
  }

  function OverlapY(o: RuntimeObject, other: RuntimeObject): real {
    (o.height + other.height) / 2.0 - Abs((o.y + o.height / 2.0) - (other.y + other.height / 2.0))
  }

  /** Lines 548-558: push `o` out of one solid along the axis of smaller
      overlap (the vertical one on a tie), stopping it on that axis. */
  function Resolve(o: RuntimeObject, other: RuntimeObject): RuntimeObject {
    if o.id == other.id || !CheckIntersection(o, other) then o
    else
      var ox := OverlapX(o, other);
      var oy := OverlapY(o, other);
      if ox < oy then
        o.(x := if o.x < other.x then o.x - ox else o.x + ox, vx := 0.0)
      else if o.y < other.y then o.(y := o.y - oy, isGrounded := true, vy := 0.0)
      else o.(y := o.y + oy, vy := 0.0)
  }

  /** Lines 547-560: resolve against each solid in turn; `solids` are read as they are now. */
  function ResolveAll(o: RuntimeObject, solids: seq<RuntimeObject>): RuntimeObject
    decreases |solids|
  {
    if solids == [] then o else Resolve(ResolveAll(o, solids[..|solids| - 1]), solids[|solids| - 1])
  }

  /** A gravity-bound object never ends the fall below the floor; when it
      would have, it rests on the floor, stopped and grounded. */
  lemma FloorClampSpec(o: RuntimeObject)
    ensures var r := FloorClamp(o);
      && (o.hasGravity ==> r.y + r.height <= FloorY)
      && (o.hasGravity && o.y + o.height > FloorY ==>
            r == o.(y := FloorY - o.height, vy := 0.0, isGrounded := true))
      && (!o.hasGravity || o.y + o.height <= FloorY ==> r == o)
  {
  }

  /** Horizontal resolution happens only when the horizontal overlap is
      strictly smaller; it moves and stops the object horizontally and
      nothing else. Otherwise the object moves and stops vertically, and it is
      grounded exactly when it was pushed up. Self-pairs are skipped. */
  lemma ResolveAxis(o: RuntimeObject, other: RuntimeObject)
    ensures o.id == other.id ==> Resolve(o, other) == o
    ensures var r := Resolve(o, other);
      o.id != other.id && CheckIntersection(o, other) ==>
        if OverlapX(o, other) < OverlapY(o, other) then
          r == o.(x := r.x, vx := 0.0)
        else
          r == o.(y := r.y, vy := 0.0, isGrounded := r.isGrounded)
          && (o.y < other.y ==> r.isGrounded && r.y == o.y - OverlapY(o, other))
          && (o.y >= other.y ==> r.isGrounded == o.isGrounded && r.y == o.y + OverlapY(o, other))
  {
  }

  /** When the left edges are ordered like the centres (always the case for
      equal widths), horizontal resolution leaves the two boxes exactly
      touching: their centres are half the summed widths apart. */
  lemma ResolveXTouches(o: RuntimeObject, other: RuntimeObject)
    requires o.id != other.id && CheckIntersection(o, other)
    requires OverlapX(o, other) < OverlapY(o, other)
    requires (o.x < other.x) <==> (o.x + o.width / 2.0 < other.x + other.width / 2.0)
    ensures var r := Resolve(o, other);
      Abs((r.x + r.width / 2.0) - (other.x + other.width / 2.0)) == (o.width + other.width) / 2.0
  {
  }

  /** The same for vertical resolution. */
  lemma ResolveYTouches(o: RuntimeObject, other: RuntimeObject)
    requires o.id != other.id && CheckIntersection(o, other)
    requires OverlapX(o, other) >= OverlapY(o, other)
    requires (o.y < other.y) <==> (o.y + o.height / 2.0 < other.y + other.height / 2.0)
    ensures var r := Resolve(o, other);
      Abs((r.y + r.height / 2.0) - (other.y + other.height / 2.0)) == (o.height + other.height) / 2.0
  {
  }

  /** A patrol that has gone past its range while moving forward turns back,
      and one behind its anchor while moving back turns forward, at the
      patrol speed. */
  lemma PatrolTurnsBack(o: RuntimeObject, physics: real)
    requires o.autoMove.Some? && o.autoMove.value.enabled && o.autoMove.value.loop
    requires o.autoMove.value.speedX != 0.0
    ensures var am := o.autoMove.value;
      var r := Patrol(o, physics);
      var range := if am.range == 0.0 then DefaultPatrolRange else am.range;
      && r.x == o.x + o.autoVx * physics
      && (o.autoVx > 0.0 && r.x - o.startX > range ==> r.autoVx == -Abs(am.speedX) && r.autoVx < 0.0)
      && (o.autoVx < 0.0 && r.x - o.startX < 0.0 ==> r.autoVx == Abs(am.speedX) && r.autoVx > 0.0)
      && (!(o.autoVx > 0.0 && r.x - o.startX > range) && !(o.autoVx < 0.0 && r.x - o.startX < 0.0) ==>
            r.autoVx == o.autoVx)
  {
  }

  /** A disabled or absent patrol moves nothing. */
  lemma NoPatrolNoMove(o: RuntimeObject, physics: real)
    requires o.autoMove.None? || !o.autoMove.value.enabled
    ensures Patrol(o, physics) == o
  {
  }

  /** What movement never changes: an object's id, type, size, flags and variables. */
  predicate SameIdentity(a: RuntimeObject, b: RuntimeObject) {
    && a.id == b.id && a.otype == b.otype && a.width == b.width && a.height == b.height
    && a.hasCollision == b.hasCollision && a.hasGravity == b.hasGravity
    && a.variables == b.variables && a.originalPrefabId == b.originalPrefabId
  }

  lemma MoveBodyKeepsIdentity(o: RuntimeObject, physics: real)
    ensures SameIdentity(MoveBody(o, physics), o)
  {
    var g := ApplyGravity(o, physics);
    assert SameIdentity(g, o);
    var p := Patrol(g, physics);
    PatrolKeepsIdentity(g, physics);
    var i := Integrate(p, physics);
    assert SameIdentity(i, p);
    assert SameIdentity(FloorClamp(i), i);
  }

  /** A patrol step changes only position and patrol velocity. */
  lemma PatrolKeepsIdentity(o: RuntimeObject, physics: real)
    ensures SameIdentity(Patrol(o, physics), o)
  {
    if o.autoMove.Some? && o.autoMove.value.enabled {
      var m := o.(x := o.x + o.autoVx * physics, y := o.y + o.autoVy * physics);
      assert SameIdentity(m, o);
      if o.autoMove.value.loop {
        var r := Patrol(o, physics);
        assert r == m.(autoVx := r.autoVx, autoVy := r.autoVy);
      }
    }
  }

  /** Pushing out of one solid changes only position, speed and grounding. */
  lemma ResolveKeepsIdentity(o: RuntimeObject, other: RuntimeObject)
    ensures SameIdentity(Resolve(o, other), o)
  {
    if o.id != other.id && CheckIntersection(o, other) {
      var ox := OverlapX(o, other);
      var oy := OverlapY(o, other);
      if ox < oy {
        assert Resolve(o, other) == o.(x := if o.x < other.x then o.x - ox else o.x + ox, vx := 0.0);
      } else if o.y < other.y {
        assert Resolve(o, other) == o.(y := o.y - oy, isGrounded := true, vy := 0.0);
      } else {
        assert Resolve(o, other) == o.(y := o.y + oy, vy := 0.0);
      }
    }
  }

  lemma {:induction false} ResolveAllKeepsIdentity(o: RuntimeObject, solids: seq<RuntimeObject>)
    ensures SameIdentity(ResolveAll(o, solids), o)
    decreases |solids|
  {
    if solids != [] {
      var prev := ResolveAll(o, solids[..|solids| - 1]);
      ResolveAllKeepsIdentity(o, solids[..|solids| - 1]);
      ResolveKeepsIdentity(prev, solids[|solids| - 1]);
    }
  }
}
