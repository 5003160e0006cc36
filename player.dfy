/** One participant (static/js/player.js): the local player's physics (gravity, ground
    clamp, movement, first-hit box collision with revert and slide, world bounds), the
    remote players' bounded snapshot history with delayed interpolation and easing,
    jumping, damage and the reset after death. Times are milliseconds, `delta` seconds. */
module Players {
  import opened Common
  import opened Geometry

  const MaxHealth: int := 100
  /** Eye height above the ground; also the ground clamp for the player's y. */
  const Height: real := 1.6
  /** Radius of the capsule, approximated by one sphere in the collision test. */
  const Radius: real := 0.4
  /** The collision sphere's center sits this far below the player's position. */
  const CapsuleOffset: real := 0.3
  const Gravity: real := 9.8
  const JumpSpeed: real := 5.0
  const WorldSize: real := 50.0
  const MaxHistoryLength: int := 20
  const InterpolationDelay: real := 100.0
  const LerpFactor: real := 0.3

  /** One entry of `positionHistory`. */
  datatype Snapshot = Snapshot(position: Vec3, timestamp: real)

  /** The fields of a network message that `updateFromNetwork` reads; absent ones are None. */
  datatype NetData = NetData(
    position: Option<Vec3>, rotation: Option<Vec3>, velocity: Option<Vec3>,
    health: Option<int>, score: Option<int>, timestamp: Option<real>)

  /** The kinematic part of a player. */
  datatype Body = Body(position: Vec3, velocity: Vec3, gravityVelocity: real, onGround: bool)

  /** Every mutable field of a player. */
  datatype PlayerState = PlayerState(
    body: Body, username: string, health: int, score: int, respawnPosition: Vec3,
    history: seq<Snapshot>, headPitch: real, headYaw: real, lastNetworkUpdate: real)

  /** A new player: full health, no score, at `position` or else at eye height over
      the origin, at rest and not yet on the ground, with an empty history. */
  function InitialState(username: string, position: Option<Vec3>, respawnPosition: Vec3): PlayerState
  {
    PlayerState(
      Body(if position.Some? then position.value else Vec3(0.0, Height, 0.0), Zero, 0.0, false),
      username, MaxHealth, 0, respawnPosition, [], 0.0, 0.0, 0.0)
  }

  // ---------------------------------------------------------------- physics

  /** The gravity stage of `updatePhysics`, with the ground clamp. */
  function ApplyGravity(b: Body, delta: real): Body
  {
    var gv := b.gravityVelocity - Gravity * delta;
    var y := b.position.y + gv * delta;
    if y < Height then b.(position := b.position.(y := Height), gravityVelocity := 0.0, onGround := true)
    else b.(position := b.position.(y := y), gravityVelocity := gv)
  }

  /** The center of the collision sphere: the position lowered by 0.3. */
  function CapsuleCenter(p: Vec3): Vec3 { p.(y := p.y - CapsuleOffset) }

  /** A box the collision loop reacts to: not ground, and reached by the sphere. */
  predicate Blocks(box: Box, center: Vec3)
  {
    !box.isGround && Touches(box, center, Radius)
  }

  /** The index of the first blocking box at or after `from`, as the `for` loop with
      `break` finds it. */
  function FirstHit(boxes: seq<Box>, center: Vec3, from: nat): (r: Option<nat>)
    requires from <= |boxes|
    ensures r.Some? ==> from <= r.value < |boxes| && Blocks(boxes[r.value], center)
    ensures r.Some? ==> forall j :: from <= j < r.value ==> !Blocks(boxes[j], center)
    ensures r.None? ==> forall j :: from <= j < |boxes| ==> !Blocks(boxes[j], center)
    decreases |boxes| - from
  {
    if from == |boxes| then None
    else if Blocks(boxes[from], center) then Some(from)
    else FirstHit(boxes, center, from + 1)
  }

  /** The velocity response to a collision with outward normal `n`: remove the inward
      component, keep an outward one. */
  function Slide(v: Vec3, n: Vec3): Vec3
  {
    var d := Dot(v, n);
    if d < 0.0 then Sub(v, Scale(n, d)) else v
  }

  /** `checkCollisions(oldPosition)`: on the first blocking box, go back to `oldPosition`
      and slide along the normal from the box's closest point to the sphere's center. */
  function Resolve(b: Body, oldPosition: Vec3, boxes: seq<Box>, sqrt: real -> real): Body
  {
    var center := CapsuleCenter(b.position);
    match FirstHit(boxes, center, 0)
    case None => b
    case Some(i) =>
      var n := Normalize(Sub(center, ClampPoint(boxes[i], center)), sqrt);
      b.(position := oldPosition, velocity := Slide(b.velocity, n))
  }

  /** The world-bounds clamp of one horizontal coordinate: `sign(v) * 50` when `|v| > 50`. */
  function ClampToWorld(v: real): real
  {
    if v > WorldSize then WorldSize else if v < -WorldSize then -WorldSize else v
  }

  /** `updatePhysics(delta)`: gravity, movement, collision, world bounds. */
  function PhysicsStep(b: Body, delta: real, boxes: seq<Box>, sqrt: real -> real): Body
  {
    var g := ApplyGravity(b, delta);
    var moved := g.(position := Add(g.position, Scale(g.velocity, delta)));
    var r := Resolve(moved, g.position, boxes, sqrt);
    r.(position := r.position.(x := ClampToWorld(r.position.x), z := ClampToWorld(r.position.z)))
  }

  /** Falling below eye height lands the player exactly at eye height; otherwise the
      fall continues with the updated vertical speed. */
  lemma GravityLandsOnGround(b: Body, delta: real)
    ensures var gv := b.gravityVelocity - Gravity * delta;
      var y := b.position.y + gv * delta;
      var g := ApplyGravity(b, delta);
      && (y < Height ==> g.position.y == Height && g.gravityVelocity == 0.0 && g.onGround)
      && (y >= Height ==> g.position.y == y && g.gravityVelocity == gv && g.onGround == b.onGround)
      && g.position.x == b.position.x && g.position.z == b.position.z && g.velocity == b.velocity
  {
  }

  /** After a physics step the player is within the ±50 world bounds. */
  lemma PhysicsStaysInWorld(b: Body, delta: real, boxes: seq<Box>, sqrt: real -> real)
    ensures var r := PhysicsStep(b, delta, boxes, sqrt);
      -WorldSize <= r.position.x <= WorldSize && -WorldSize <= r.position.z <= WorldSize
  {
  }

  /** Inside the bounds the clamp changes nothing; outside it snaps to the nearer wall. */
  lemma ClampToWorldExact(v: real)
    ensures -WorldSize <= v <= WorldSize ==> ClampToWorld(v) == v
    ensures v > WorldSize ==> ClampToWorld(v) == WorldSize
    ensures v < -WorldSize ==> ClampToWorld(v) == -WorldSize
  {
  }

  /** Whenever some non-ground box is reached after the move, the move is undone
      (no tunnelling into a box), and the response is that of the first such box. */
  lemma BlockedMoveIsReverted(b: Body, oldPosition: Vec3, boxes: seq<Box>, sqrt: real -> real, j: nat)
    requires j < |boxes| && Blocks(boxes[j], CapsuleCenter(b.position))
    ensures var r := Resolve(b, oldPosition, boxes, sqrt);
      r.position == oldPosition && r.gravityVelocity == b.gravityVelocity && r.onGround == b.onGround
    ensures var center := CapsuleCenter(b.position);
      exists i :: 0 <= i <= j && FirstHit(boxes, center, 0) == Some(i) &&
        Resolve(b, oldPosition, boxes, sqrt).velocity ==
          Slide(b.velocity, Normalize(Sub(center, ClampPoint(boxes[i], center)), sqrt))
  {
  }

  /** With no box reached, the body is left as it is. */
  lemma UnblockedMoveIsKept(b: Body, oldPosition: Vec3, boxes: seq<Box>, sqrt: real -> real)
    requires forall j :: 0 <= j < |boxes| ==> !Blocks(boxes[j], CapsuleCenter(b.position))
    ensures Resolve(b, oldPosition, boxes, sqrt) == b
  {
  }

  /** Sliding along a unit normal removes exactly the inward component (no bounce):
      the new velocity is perpendicular to the normal; an outward velocity is kept. */
  lemma SlideRemovesInwardComponent(v: Vec3, n: Vec3)
    requires Dot(n, n) == 1.0
    ensures Dot(v, n) < 0.0 ==> Dot(Slide(v, n), n) == 0.0
    ensures Dot(v, n) >= 0.0 ==> Slide(v, n) == v
  {
    var d := Dot(v, n);
    if d < 0.0 {
      calc {
        Dot(Sub(v, Scale(n, d)), n);
        == (v.x - n.x * d) * n.x + (v.y - n.y * d) * n.y + (v.z - n.z * d) * n.z;
        == Dot(v, n) - d * Dot(n, n);
        == 0.0;
      }
    }
  }

  // ---------------------------------------------------------------- snapshot history

  /** `push` followed by `while (length > 20) shift()`. */
  function PushBounded(h: seq<Snapshot>, s: Snapshot): seq<Snapshot>
  {
    var h' := h + [s];
    if |h'| > MaxHistoryLength then h'[|h'| - MaxHistoryLength..] else h'
  }

  /** The history keeps at most 20 entries, the newest last, evicting the oldest first:
      it is always the longest suffix of at most 20 entries of the pushed sequence. */
  lemma PushBoundedKeepsNewest(h: seq<Snapshot>, s: Snapshot)
    ensures var r := PushBounded(h, s);
      && |r| <= MaxHistoryLength && r != [] && r[|r| - 1] == s
      && r == (h + [s])[|h| + 1 - |r|..]
      && (|h| < MaxHistoryLength ==> r == h + [s])
      && (|h| == MaxHistoryLength ==> r == h[1..] + [s])
  {
    var h' := h + [s];
    if |h| == MaxHistoryLength {
      assert h'[1..] == h[1..] + [s];
    }
  }

  /** The scanning loop's test for the pair (i, i + 1) around `target`. */
  predicate Brackets(h: seq<Snapshot>, i: nat, target: real)
    requires i + 1 < |h|
  {
    h[i].timestamp <= target && h[i + 1].timestamp >= target
  }

  /** The first bracketing pair at or after `from`, as the `for` loop with `break` finds it. */
  function Bracket(h: seq<Snapshot>, target: real, from: nat): (r: Option<nat>)
    ensures r.Some? ==> from <= r.value && r.value + 1 < |h| && Brackets(h, r.value, target)
    ensures r.Some? ==> forall j :: from <= j < r.value ==> !Brackets(h, j, target)
    ensures r.None? ==> forall j :: from <= j && j + 1 < |h| ==> !Brackets(h, j, target)
    decreases |h| - from
  {
    if from + 1 >= |h| then None
    else if Brackets(h, from, target) then Some(from)
    else Bracket(h, target, from + 1)
  }

  /** The interpolation fraction between two bracketing snapshots. Two snapshots with
      the same timestamp give the earlier one (fraction 0). */
  function Alpha(current: Snapshot, next: Snapshot, target: real): real
  {
    if next.timestamp == current.timestamp then 0.0
    else (target - current.timestamp) / (next.timestamp - current.timestamp)
  }

  /** The fraction as the source computes it; `None` stands for JavaScript's NaN (0 / 0). */
  function AlphaAsWritten(current: Snapshot, next: Snapshot, target: real): Option<real>
  {
    var num := target - current.timestamp;
    var den := next.timestamp - current.timestamp;
    if den == 0.0 then None else Some(num / den)
  }

  /** A bracketing pair gives a fraction in [0, 1]. */
  lemma AlphaInUnitInterval(current: Snapshot, next: Snapshot, target: real)
    requires current.timestamp <= target <= next.timestamp
    ensures 0.0 <= Alpha(current, next, target) <= 1.0
  {
    if next.timestamp != current.timestamp {
      var num := target - current.timestamp;
      var den := next.timestamp - current.timestamp;
      assert 0.0 <= num <= den;
      assert num / den <= den / den;
    }
  }

  /** A history with two snapshots at the same time, both at the playback time, has a
      bracketing pair whose fraction the source computes as 0 / 0, while `Alpha` gives 0. */
  lemma EqualTimestampsGiveNaN()
    ensures var h := [Snapshot(Zero, 900.0), Snapshot(Vec3(1.0, 0.0, 0.0), 900.0)];
      && Bracket(h, 1000.0 - InterpolationDelay, 0) == Some(0)
      && AlphaAsWritten(h[0], h[1], 1000.0 - InterpolationDelay) == None
      && Alpha(h[0], h[1], 1000.0 - InterpolationDelay) == 0.0
  {
  }

  /** Where `updateFromNetwork` moves the displayed position for a history `h`:
      0.3 of the way towards the interpolated point of the first bracketing pair, or,
      with no such pair, towards the latest snapshot. */
  function EasedPosition(pos: Vec3, h: seq<Snapshot>, now: real): Vec3
    requires h != []
  {
    match InterpolatedPoint(h, now - InterpolationDelay)
    case Some(p) => Lerp(pos, p, LerpFactor)
    case None => Lerp(pos, h[|h| - 1].position, LerpFactor)
  }

  /** The point between the first bracketing snapshots at playback time `target`. */
  function InterpolatedPoint(h: seq<Snapshot>, target: real): Option<Vec3>
  {
    match Bracket(h, target, 0)
    case Some(i) => Some(Lerp(h[i].position, h[i + 1].position, Alpha(h[i], h[i + 1], target)))
    case None => None
  }

  /** The timestamp stored for a snapshot: `data.timestamp || now` (0 falls back to now). */
  function SnapshotTime(data: NetData, now: real): real
  {
    if data.timestamp.Some? && data.timestamp.value != 0.0 then data.timestamp.value else now
  }

  /** The position part of `updateFromNetwork`: push the snapshot, then ease. */
  function PositionStep(s: PlayerState, data: NetData, now: real): PlayerState
  {
    if data.position.None? then s else Observe(s, Snapshot(data.position.value, SnapshotTime(data, now)), now)
  }

  /** Record a snapshot, then ease the displayed position using the new history. */
  function Observe(s: PlayerState, snapshot: Snapshot, now: real): PlayerState
  {
    var h := PushBounded(s.history, snapshot);
    s.(history := h, body := s.body.(position := EasedPosition(s.body.position, h, now)))
  }

  /** The rest of `updateFromNetwork`: rotation easing, velocity, health, score, time. */
  function FieldsStep(s: PlayerState, data: NetData, now: real): PlayerState
  {
    var s2 :=
      if data.rotation.None? then s
      else s.(headPitch := LerpReal(s.headPitch, data.rotation.value.x, LerpFactor),
              headYaw := LerpReal(s.headYaw, data.rotation.value.y, LerpFactor));
    var s3 := if data.velocity.None? then s2 else s2.(body := s2.body.(velocity := data.velocity.value));
    var s4 := if data.health.None? then s3 else s3.(health := data.health.value);
    var s5 := if data.score.None? then s4 else s4.(score := data.score.value);
    s5.(lastNetworkUpdate := now)
  }

  /** `updateFromNetwork(data)` at time `now`. */
  function NetworkStep(s: PlayerState, data: NetData, now: real): PlayerState
  {
    FieldsStep(PositionStep(s, data, now), data, now)
  }

  /** The displayed position eases 0.3 of the way towards a point of the segment between
      the first bracketing snapshots, with a fraction in [0, 1]; without a bracketing
      pair, towards the newest snapshot. */
  lemma InterpolationTarget(pos: Vec3, h: seq<Snapshot>, now: real)
    requires h != []
    ensures var target := now - InterpolationDelay;
      && (Bracket(h, target, 0).None? ==> EasedPosition(pos, h, now) == Lerp(pos, h[|h| - 1].position, LerpFactor))
      && (Bracket(h, target, 0).Some? ==>
            var i := Bracket(h, target, 0).value;
            var a := Alpha(h[i], h[i + 1], target);
            0.0 <= a <= 1.0 &&
            EasedPosition(pos, h, now) == Lerp(pos, Lerp(h[i].position, h[i + 1].position, a), LerpFactor))
  {
    var target := now - InterpolationDelay;
    if Bracket(h, target, 0).Some? {
      var i := Bracket(h, target, 0).value;
      AlphaInUnitInterval(h[i], h[i + 1], target);
    }
  }

  /** A message with a position pushes one snapshot onto the bounded history and eases
      the displayed position over the new history; the other fields leave both alone. */
  lemma NetworkPositionUpdate(s: PlayerState, data: NetData, now: real)
    requires data.position.Some?
    ensures var h := PushBounded(s.history, Snapshot(data.position.value, SnapshotTime(data, now)));
      h != [] &&
      NetworkStep(s, data, now).history == h &&
      NetworkStep(s, data, now).body.position == EasedPosition(s.body.position, h, now)
  {
    PushBoundedKeepsNewest(s.history, Snapshot(data.position.value, SnapshotTime(data, now)));
  }

  /** Snapshots at t = 0 and t = 200 at x = 0 and x = 10, played back at now = 200,
      interpolate halfway: the point (5, 0, 0), before easing. */
  lemma HalfwayInterpolation()
    ensures var h := [Snapshot(Zero, 0.0), Snapshot(Vec3(10.0, 0.0, 0.0), 200.0)];
      var target := 200.0 - InterpolationDelay;
      && Bracket(h, target, 0) == Some(0)
      && Alpha(h[0], h[1], target) == 0.5
      && Lerp(h[0].position, h[1].position, Alpha(h[0], h[1], target)) == Vec3(5.0, 0.0, 0.0)
  {
    var h := [Snapshot(Zero, 0.0), Snapshot(Vec3(10.0, 0.0, 0.0), 200.0)];
    assert Brackets(h, 0, 100.0);
  }

  /** A message without a position leaves the history and the position alone, and the
      discrete health and score are taken over as they are. */
  lemma DiscreteFieldsApplied(s: PlayerState, data: NetData, now: real)
    ensures data.position.None? ==>
      NetworkStep(s, data, now).history == s.history &&
      NetworkStep(s, data, now).body.position == s.body.position
    ensures data.health.Some? ==> NetworkStep(s, data, now).health == data.health.value
    ensures data.health.None? ==> NetworkStep(s, data, now).health == s.health
    ensures data.score.Some? ==> NetworkStep(s, data, now).score == data.score.value
    ensures data.score.None? ==> NetworkStep(s, data, now).score == s.score
  {
  }

  // ---------------------------------------------------------------- jump, damage, reset

  function JumpStep(b: Body): Body
  {
    if b.onGround then b.(gravityVelocity := JumpSpeed, onGround := false) else b
  }

  /** Jumping only works on the ground, where it gives a vertical speed of 5. */
  lemma JumpOnlyFromGround(b: Body)
    ensures b.onGround ==>
      (JumpStep(b).gravityVelocity == 5.0 && !JumpStep(b).onGround &&
       JumpStep(b).position == b.position && JumpStep(b).velocity == b.velocity)
    ensures !b.onGround ==> JumpStep(b) == b
  {
  }

  /** `takeDamage(amount)`: health after the hit, never below 0. */
  function DamagedHealth(health: int, amount: int): (h: int)
    ensures h >= 0
    ensures h > 0 ==> h == health - amount
    ensures h == 0 <==> health - amount <= 0
    ensures amount >= 0 && health >= 0 ==> h <= health
  {
    var h := health - amount;
    if h < 0 then 0 else h
  }

  /** The player object, with the fields player.js updates in place. */
  class Player {
    const id: string
    const isLocal: bool
    var username: string
    var health: int
    var score: int
    var position: Vec3
    var velocity: Vec3
    var gravityVelocity: real
    var onGround: bool
    var respawnPosition: Vec3
    var positionHistory: seq<Snapshot>
    var headPitch: real
    var headYaw: real
    var lastNetworkUpdate: real

    function Kinematics(): Body
      reads this
    {
      Body(position, velocity, gravityVelocity, onGround)
    }

    function State(): PlayerState
      reads this
    {
      PlayerState(Kinematics(), username, health, score, respawnPosition,
                  positionHistory, headPitch, headYaw, lastNetworkUpdate)
    }

    ghost predicate Valid()
      reads this
    {
      |positionHistory| <= MaxHistoryLength
    }

    /** `new Player(game, id, data)`; `localId` is the game's `playerId`, and
        `respawnPosition` the random default respawn point the constructor draws. */
    constructor (id: string, username: string, position: Option<Vec3>, localId: Option<string>, respawnPosition: Vec3)
      ensures Valid()
      ensures this.id == id && this.isLocal == (localId == Some(id))
      ensures State() == InitialState(username, position, respawnPosition)
    {
      this.id := id;
      this.username := username;
      this.health := MaxHealth;
      this.score := 0;
      this.isLocal := localId == Some(id);
      this.position := if position.Some? then position.value else Vec3(0.0, Height, 0.0);
      this.velocity := Zero;
      this.gravityVelocity := 0.0;
      this.onGround := false;
      this.respawnPosition := respawnPosition;
      this.positionHistory := [];
      this.headPitch := 0.0;
      this.headYaw := 0.0;
      this.lastNetworkUpdate := 0.0;
    }

    /** `updatePhysics(delta)` against the world's boxes. */
    method UpdatePhysics(delta: real, boxes: seq<Box>, sqrt: real -> real)
      requires Valid()
      modifies this
      ensures Valid()
      ensures State() == old(State()).(body := PhysicsStep(old(Kinematics()), delta, boxes, sqrt))
    {
      ghost var b0 := Kinematics();
      gravityVelocity := gravityVelocity - Gravity * delta;
      position := position.(y := position.y + gravityVelocity * delta);
      if position.y < Height {
        position := position.(y := Height);
        gravityVelocity := 0.0;
        onGround := true;
      }
      assert Kinematics() == ApplyGravity(b0, delta);
      var oldPosition := position;
      position := Add(position, Scale(velocity, delta));
      ghost var moved := Kinematics();
      CheckCollisions(oldPosition, boxes, sqrt);
      assert Kinematics() == Resolve(moved, oldPosition, boxes, sqrt);
      if position.x > WorldSize || position.x < -WorldSize {
        position := position.(x := if position.x > 0.0 then WorldSize else -WorldSize);
      }
      if position.z > WorldSize || position.z < -WorldSize {
        position := position.(z := if position.z > 0.0 then WorldSize else -WorldSize);
      }
    }

    /** `checkCollisions(oldPosition)`: the first blocking non-ground box undoes the move
        and removes the inward part of the velocity. */
    method CheckCollisions(oldPosition: Vec3, boxes: seq<Box>, sqrt: real -> real)
      modifies this
      ensures State() == old(State()).(body := Resolve(old(Kinematics()), oldPosition, boxes, sqrt))
    {
      var i := 0;
      while i < |boxes|
        invariant 0 <= i <= |boxes|
        invariant State() == old(State())
        invariant FirstHit(boxes, CapsuleCenter(position), 0) == FirstHit(boxes, CapsuleCenter(position), i)
      {
        var box := boxes[i];
        if !box.isGround {
          var playerPosition := position.(y := position.y - CapsuleOffset);
          var closestPoint := ClampPoint(box, playerPosition);
          if DistSq(playerPosition, closestPoint) < Radius * Radius {
            var direction := Normalize(Sub(playerPosition, closestPoint), sqrt);
            position := oldPosition;
            var dot := Dot(velocity, direction);
            if dot < 0.0 {
              velocity := Sub(velocity, Scale(direction, dot));
            }
            return;
          }
        }
        i := i + 1;
      }
    }

    /** `updateFromNetwork(data)` at time `now`. */
    method UpdateFromNetwork(data: NetData, now: real)
      requires Valid()
      modifies this
      ensures Valid()
      ensures State() == NetworkStep(old(State()), data, now)
    {
      if data.position.Some? {
        ApplyPosition(Snapshot(data.position.value, SnapshotTime(data, now)), now);
      }
      assert State() == PositionStep(old(State()), data, now);
      ApplyFields(data, now);
    }

    /** The rest of `updateFromNetwork`: head rotation, velocity, health, score and the
        time of the update. */
    method ApplyFields(data: NetData, now: real)
      requires Valid()
      modifies this
      ensures Valid()
      ensures State() == FieldsStep(old(State()), data, now)
    {
      if data.rotation.Some? {
        headPitch := LerpReal(headPitch, data.rotation.value.x, LerpFactor);
        headYaw := LerpReal(headYaw, data.rotation.value.y, LerpFactor);
      }
      if data.velocity.Some? {
        velocity := data.velocity.value;
      }
      if data.health.Some? {
        health := data.health.value;
      }
      if data.score.Some? {
        score := data.score.value;
      }
      lastNetworkUpdate := now;
    }

    /** The position branch of `updateFromNetwork`: record the snapshot, then ease towards
        the interpolated point, or towards the newest snapshot when none brackets. */
    method ApplyPosition(snapshot: Snapshot, now: real)
      requires Valid()
      modifies this
      ensures Valid()
      ensures State() == Observe(old(State()), snapshot, now)
    {
      PushSnapshot(snapshot);
      var targetPosition := FindTargetPosition(now - InterpolationDelay);
      if targetPosition.Some? {
        position := Lerp(position, targetPosition.value, LerpFactor);
      } else if |positionHistory| > 0 {
        var latest := positionHistory[|positionHistory| - 1];
        position := Lerp(position, latest.position, LerpFactor);
      }
    }

    /** The push onto `positionHistory` and the eviction loop of `updateFromNetwork`. */
    method PushSnapshot(snapshot: Snapshot)
      requires Valid()
      modifies this
      ensures Valid()
      ensures State() == old(State()).(history := PushBounded(old(positionHistory), snapshot))
    {
      ghost var pushed := positionHistory + [snapshot];
      positionHistory := positionHistory + [snapshot];
      while |positionHistory| > MaxHistoryLength
        invariant |pushed| >= |positionHistory| && positionHistory == pushed[|pushed| - |positionHistory|..]
        invariant |pushed| > MaxHistoryLength ==> |positionHistory| >= MaxHistoryLength
        invariant |pushed| <= MaxHistoryLength ==> positionHistory == pushed
        invariant State() == old(State()).(history := positionHistory)
        decreases |positionHistory|
      {
        positionHistory := positionHistory[1..];
      }
    }

    /** The scanning loop of `updateFromNetwork`: the interpolated point of the first
        pair of snapshots around `targetTime`, if there is one. */
    method FindTargetPosition(targetTime: real) returns (targetPosition: Option<Vec3>)
      ensures targetPosition == InterpolatedPoint(positionHistory, targetTime)
    {
      targetPosition := None;
      var i := 0;
      while i < |positionHistory| - 1
        invariant 0 <= i <= |positionHistory|
        invariant Bracket(positionHistory, targetTime, 0) == Bracket(positionHistory, targetTime, i)
        invariant targetPosition.None?
      {
        var current := positionHistory[i];
        var next := positionHistory[i + 1];
        if current.timestamp <= targetTime && next.timestamp >= targetTime {
          var alpha := Alpha(current, next, targetTime);
          targetPosition := Some(Lerp(current.position, next.position, alpha));
          return;
        }
        i := i + 1;
      }
    }

    /** `jump()`. */
    method Jump()
      modifies this
      ensures State() == old(State()).(body := JumpStep(old(Kinematics())))
    {
      if onGround {
        gravityVelocity := JumpSpeed;
        onGround := false;
      }
    }

    /** `takeDamage(amount)`; `died` says whether it calls the game's `endGame`. */
    method TakeDamage(amount: int) returns (died: bool)
      modifies this
      ensures State() == old(State()).(health := DamagedHealth(old(health), amount))
      ensures died <==> health <= 0
    {
      health := health - amount;
      if health < 0 {
        health := 0;
      }
      died := health <= 0;
    }

    /** `resetAfterDeath()`: full health, back at the respawn point, at rest. */
    method ResetAfterDeath()
      modifies this
      ensures State() == old(State()).(health := MaxHealth,
        body := old(Kinematics()).(position := old(respawnPosition), velocity := Zero, gravityVelocity := 0.0))
    {
      health := MaxHealth;
      position := respawnPosition;
      velocity := Zero;
      gravityVelocity := 0.0;
    }
  }
}
