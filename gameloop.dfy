/** The per-frame `update` and `restartGame` of static/js/game.js, which drive the
    controls, the local player, the collision respawn and the network session
    together. The frame time and the random respawn values are parameters. */
module GameLoop {
  import opened Common
  import opened Geometry
  import opened Players
  import opened Games
  import opened Network
  import opened Input

  /** The local player's body after the controls set its velocity and, for a local
      player, after `updatePhysics`. */
  function MovedBody(b: Body, keys: Keys, yaw: real, delta: real, boxes: seq<Box>, isLocal: bool,
                     sqrt: real -> real, rotateY: (Vec3, real) -> Vec3): Body
  {
    LocalPhysics(b.(velocity := MoveVelocity(b.velocity, keys, yaw, sqrt, rotateY)), delta, boxes, isLocal, sqrt)
  }

  /** `player.update(delta)`: only a local player runs physics. */
  function LocalPhysics(b: Body, delta: real, boxes: seq<Box>, isLocal: bool, sqrt: real -> real): Body
  {
    if isLocal then PhysicsStep(b, delta, boxes, sqrt) else b
  }

  /** Whatever the keys, the frame time and the boxes, a local player ends a frame
      inside the world, and so does a collision respawn from random values in [0, 1). */
  lemma {:induction false} FrameStaysInWorld(b: Body, keys: Keys, yaw: real, delta: real, boxes: seq<Box>,
                                             sqrt: real -> real, rotateY: (Vec3, real) -> Vec3, rx: real, rz: real)
    requires 0.0 <= rx < 1.0 && 0.0 <= rz < 1.0
    ensures var m := MovedBody(b, keys, yaw, delta, boxes, true, sqrt, rotateY);
      -WorldSize <= m.position.x <= WorldSize && -WorldSize <= m.position.z <= WorldSize
    ensures -WorldSize <= RespawnPoint(rx, rz).x <= WorldSize && -WorldSize <= RespawnPoint(rx, rz).z <= WorldSize
  {
    PhysicsStaysInWorld(b.(velocity := MoveVelocity(b.velocity, keys, yaw, sqrt, rotateY)), delta, boxes, sqrt);
  }

  /** A frame's movement leaves everything but the body untouched, and idle keys stop
      the horizontal motion before physics runs. */
  lemma IdleFrameHasNoHorizontalSpeed(b: Body, keys: Keys, yaw: real, delta: real, boxes: seq<Box>,
                                      sqrt: real -> real, rotateY: (Vec3, real) -> Vec3)
    requires !keys.forward && !keys.backward && !keys.left && !keys.right
    ensures MovedBody(b, keys, yaw, delta, boxes, false, sqrt, rotateY).velocity == b.velocity.(x := 0.0, z := 0.0)
    ensures MovedBody(b, keys, yaw, delta, boxes, false, sqrt, rotateY).position == b.position
  {
    IdleStops(b.velocity, keys, yaw, sqrt, rotateY);
  }

  function Sent(m: Option<Outbound>): seq<Outbound>
  {
    if m.Some? then [m.value] else []
  }

  /** The `sendPlayerUpdate` calls of a frame on a session connected or not: the one in
      `respawnPlayer` after a collision, then the one at the end of `update()`, both with
      the same position, rotation, velocity and time. */
  function FrameUpdates(t: Throttle, connected: bool, collided: bool, p: Vec3, r: Vec3, v: Vec3, now: real)
    : (Throttle, seq<Outbound>)
  {
    var (t1, s1) := if collided then UpdateStep(t, connected, p, r, v, now) else (t, None);
    var (t2, s2) := UpdateStep(t1, connected, p, r, v, now);
    (t2, Sent(s1) + Sent(s2))
  }

  /** A frame sends at most one state update: when the respawn's update passes the
      50 ms gate, the frame's own call comes at the same time and is throttled. A
      disconnected session sends nothing and keeps its throttle state. */
  lemma AtMostOneUpdatePerFrame(t: Throttle, connected: bool, collided: bool, p: Vec3, r: Vec3, v: Vec3, now: real)
    ensures |FrameUpdates(t, connected, collided, p, r, v, now).1| <= 1
    ensures !connected ==> FrameUpdates(t, connected, collided, p, r, v, now) == (t, [])
    ensures !collided ==> FrameUpdates(t, connected, collided, p, r, v, now).1 == Sent(UpdateStep(t, connected, p, r, v, now).1)
  {
    if collided && PassesGate(t, connected, now) {
      var t1 := UpdateStep(t, connected, p, r, v, now).0;
      assert t1.lastUpdateTime == now;
      ThrottledUpdateIsNoOp(t1, connected, p, r, v, now);
    }
  }

  /** `update()` for one frame of `delta` seconds at time `now`: nothing while the game
      is stopped or the local player is dead; otherwise the controls and physics run, an
      overlap respawns the player at the point drawn from `rx` and `rz`, and a connected
      session is sent the player's state. Returns whether the overlap test fired. */
  method Frame(game: Game, controls: Controls, session: Session, delta: real, now: real, boxes: seq<Box>,
               rotation: Vec3, rx: real, rz: real, sqrt: real -> real, rotateY: (Vec3, real) -> Vec3)
    returns (collided: bool)
    requires game.Valid() && controls.Valid()
    modifies game.player, controls, session
    ensures game.Valid() && controls.Valid()
    ensures !game.isRunning || game.player == null || old(game.player.health) <= 0 ==>
      && !collided && controls.State() == old(controls.State())
      && (game.player != null ==> unchanged(game.player)) && unchanged(session)
    ensures game.isRunning && game.player != null && old(game.player.health) > 0 ==>
      && controls.State() == (if controls.smoothing then SmoothLook(old(controls.State()), delta) else old(controls.State()))
      && var m := MovedBody(old(game.player.Kinematics()), old(controls.keys), controls.yaw, delta, boxes, game.player.isLocal, sqrt, rotateY);
         && game.player.State() == old(game.player.State()).(body := if collided then m.(position := RespawnPoint(rx, rz)) else m)
         && ((exists j :: 0 <= j < |boxes| && Blocks(boxes[j], CapsuleCenter(m.position))) ==> collided)
    ensures game.isRunning && game.player != null && old(game.player.health) > 0 && !collided ==>
      !game.NearOtherPlayer(game.player.position)
    ensures game.isRunning && game.player != null && old(game.player.health) > 0 ==>
      var (t, sent) := FrameUpdates(old(session.ThrottleState()), old(session.connected), collided,
                                    game.player.position, rotation, game.player.velocity, now);
      && session.ThrottleState() == t && session.outbox == old(session.outbox) + sent
      && session.connected == old(session.connected)
    ensures session.hasSocket == old(session.hasSocket) && session.reconnectAttempts == old(session.reconnectAttempts)
  {
    collided := false;
    if !game.isRunning || game.player == null || game.player.health <= 0 {
      return;
    }
    controls.Update(game, delta, sqrt, rotateY);
    collided := MoveLocalPlayer(game, delta, boxes, rx, rz, sqrt);
    SendFrameUpdates(session, collided, game.player.position, rotation, game.player.velocity, now);
  }

  /** The update `respawnPlayer` sends after a collision, then the one closing `update()`,
      each only while connected. */
  method SendFrameUpdates(session: Session, collided: bool, p: Vec3, r: Vec3, v: Vec3, now: real)
    modifies session
    ensures var (t, sent) := FrameUpdates(old(session.ThrottleState()), old(session.connected), collided, p, r, v, now);
      session.ThrottleState() == t && session.outbox == old(session.outbox) + sent
    ensures session.connected == old(session.connected)
    ensures session.hasSocket == old(session.hasSocket) && session.reconnectAttempts == old(session.reconnectAttempts)
  {
    if collided && session.connected {
      session.SendPlayerUpdate(p, r, v, now);
    }
    if session.connected {
      session.SendPlayerUpdate(p, r, v, now);
    }
  }

  /** The physics, overlap test and respawn steps of `update()` for a present local player. */
  method MoveLocalPlayer(game: Game, delta: real, boxes: seq<Box>, rx: real, rz: real, sqrt: real -> real)
    returns (collided: bool)
    requires game.Valid() && game.player != null
    modifies game.player
    ensures game.Valid()
    ensures var m := LocalPhysics(old(game.player.Kinematics()), delta, boxes, game.player.isLocal, sqrt);
      game.player.State() == old(game.player.State()).(body := if collided then m.(position := RespawnPoint(rx, rz)) else m)
    ensures var m := LocalPhysics(old(game.player.Kinematics()), delta, boxes, game.player.isLocal, sqrt);
      (exists j :: 0 <= j < |boxes| && Blocks(boxes[j], CapsuleCenter(m.position))) ==> collided
    ensures !collided ==> !game.NearOtherPlayer(game.player.position)
  {
    if game.player.isLocal {
      game.player.UpdatePhysics(delta, boxes, sqrt);
    }
    collided := game.CheckCollision(boxes);
    if collided {
      game.RespawnPlayer(rx, rz);
    }
  }

  /** `restartGame()`: the session is reset and the network disconnected. The call to
      `controls.reset()` that follows throws, since `Controls` has no such method, so
      nothing after it runs. */
  method RestartGame(game: Game, session: Session)
    modifies game, session
    ensures game.View() == old(game.View()).(isRunning := false, score := 0, players := map[], playerId := None,
      killLog := KillLog([], old(game.lastKillTime)))
    ensures session.connected == (old(session.connected) && !old(session.hasSocket))
    ensures session.outbox == old(session.outbox) && session.ThrottleState() == old(session.ThrottleState())
    ensures session.hasSocket == old(session.hasSocket) && session.reconnectAttempts == old(session.reconnectAttempts)
  {
    game.Restart();
    session.Disconnect();
  }
}
