/** The client's network session (static/js/network.js): the connection flag and
    reconnect counter, the throttled and change-suppressed outbound state update, the
    other outbound messages, and the inbound Socket.IO handlers as transitions of the
    game session. Sent messages are appended to `outbox`; times are ms. */
module Network {
  import opened Common
  import opened Geometry
  import opened Players
  import opened Games
  import Weapons

  /** The minimum spacing of two state updates. */
  const UpdateInterval: real := 50.0
  /** The smallest change of position, rotation or velocity that is sent. */
  const ChangeThreshold: real := 0.01
  /** The spawn a `game:start` or `player:joined` message without a position gets. */
  const DefaultSpawn: Vec3 := Vec3(0.0, 5.0, 0.0)

  datatype Outbound =
    | Join(username: string)
    | PlayerUpdate(position: Vec3, rotation: Vec3, velocity: Vec3, timestamp: real)
    | Shoot(targetId: string, timestamp: real)
    | Death(killerId: string, timestamp: real)
    | Respawn(timestamp: real)

  /** The fields `sendPlayerUpdate` keeps between calls. */
  datatype Throttle = Throttle(
    lastUpdateTime: real, lastPosition: Option<Vec3>, lastRotation: Option<Vec3>, lastVelocity: Option<Vec3>)

  function Abs(r: real): real { if r < 0.0 then -r else r }

  /** `!last || last.distanceTo(v) > 0.01`, compared on squares. */
  predicate Moved(last: Option<Vec3>, v: Vec3)
  {
    last.None? || DistSq(last.value, v) > ChangeThreshold * ChangeThreshold
  }

  /** `!last || Math.abs(last.y - rotation.y) > 0.01`. */
  predicate Turned(last: Option<Vec3>, rotation: Vec3)
  {
    last.None? || Abs(last.value.y - rotation.y) > ChangeThreshold
  }

  predicate PassesGate(t: Throttle, connected: bool, now: real)
  {
    connected && now - t.lastUpdateTime > UpdateInterval
  }

  predicate Changed(t: Throttle, position: Vec3, rotation: Vec3, velocity: Vec3)
  {
    Moved(t.lastPosition, position) || Turned(t.lastRotation, rotation) || Moved(t.lastVelocity, velocity)
  }

  /** `sendPlayerUpdate({position, rotation, velocity})` at time `now`: the new throttle
      state and the message sent, if any. */
  function UpdateStep(t: Throttle, connected: bool, position: Vec3, rotation: Vec3, velocity: Vec3, now: real): (Throttle, Option<Outbound>)
  {
    if !PassesGate(t, connected, now) then (t, None)
    else if Changed(t, position, rotation, velocity) then
      (Throttle(now, Some(position), Some(rotation), Some(velocity)),
       Some(PlayerUpdate(position, rotation, velocity, now)))
    else (t.(lastUpdateTime := now), None)
  }

  /** Disconnected, or within 50 ms of the last gated call: nothing is sent or changed. */
  lemma ThrottledUpdateIsNoOp(t: Throttle, connected: bool, position: Vec3, rotation: Vec3, velocity: Vec3, now: real)
    requires !PassesGate(t, connected, now)
    ensures UpdateStep(t, connected, position, rotation, velocity, now) == (t, None)
  {
  }

  /** Past the gate the clock always advances to `now`; a message goes out iff something
      changed, it carries the current values and `now`, and the remembered values change
      only when it does. */
  lemma GatedUpdateSendsChanges(t: Throttle, connected: bool, position: Vec3, rotation: Vec3, velocity: Vec3, now: real)
    requires PassesGate(t, connected, now)
    ensures var (t', sent) := UpdateStep(t, connected, position, rotation, velocity, now);
      && t'.lastUpdateTime == now
      && (sent.Some? <==> Changed(t, position, rotation, velocity))
      && (sent.Some? ==>
            (sent.value == PlayerUpdate(position, rotation, velocity, now) && t'.lastPosition == Some(position) &&
             t'.lastRotation == Some(rotation) && t'.lastVelocity == Some(velocity)))
      && (sent.None? ==>
            (t'.lastPosition == t.lastPosition && t'.lastRotation == t.lastRotation && t'.lastVelocity == t.lastVelocity))
  {
  }

  /** The first update past the gate is always sent. */
  lemma FirstUpdateIsSent(t: Throttle, connected: bool, position: Vec3, rotation: Vec3, velocity: Vec3, now: real)
    requires PassesGate(t, connected, now) && t.lastPosition.None?
    ensures UpdateStep(t, connected, position, rotation, velocity, now).1.Some?
  {
  }

  /** Repeating the values last sent sends nothing. */
  lemma UnchangedStateIsSuppressed(t: Throttle, connected: bool, position: Vec3, rotation: Vec3, velocity: Vec3, now: real)
    requires t.lastPosition == Some(position) && t.lastRotation == Some(rotation) && t.lastVelocity == Some(velocity)
    ensures UpdateStep(t, connected, position, rotation, velocity, now).1.None?
  {
    assert Sub(position, position) == Zero;
    assert Sub(velocity, velocity) == Zero;
  }

  /** Two consecutive calls that both pass the gate are more than 50 ms apart. */
  lemma GatedCallsAreSpaced(t: Throttle, connected: bool, p1: Vec3, r1: Vec3, v1: Vec3, now1: real,
                            p2: Vec3, r2: Vec3, v2: Vec3, now2: real)
    requires PassesGate(t, connected, now1)
    requires PassesGate(UpdateStep(t, connected, p1, r1, v1, now1).0, connected, now2)
    ensures now2 - now1 > UpdateInterval
  {
  }

  /** What a roster entry of `player:list` carries. */
  datatype RosterEntry = RosterEntry(username: string, position: Option<Vec3>)

  /** What an entry of `players:state` carries. */
  datatype StateEntry = StateEntry(
    username: string, position: Option<Vec3>, rotation: Option<Vec3>, velocity: Option<Vec3>,
    health: int, score: int, timestamp: Option<real>)

  /** The fields `updateFromNetwork` reads from a `players:state` entry. */
  function StateData(e: StateEntry): NetData
  {
    NetData(e.position, e.rotation, e.velocity, Some(e.health), Some(e.score), e.timestamp)
  }

  /** The object key JavaScript looks up for the local id: `null` becomes "null". */
  function JsKey(playerId: Option<string>): string
  {
    if playerId.Some? then playerId.value else "null"
  }

  /** Taking one id off the to-do list adds it to the done ones. */
  lemma MoveToDone<T>(ids: set<T>, todo: set<T>, k: T)
    requires k in todo && todo <= ids
    ensures (ids - todo) + {k} == ids - (todo - {k})
  {
  }

  lemma NothingLeft<T>(ids: set<T>, todo: set<T>)
    requires todo == {}
    ensures ids - todo == ids
  {
  }

  /** The ids of a roster that the client creates: every one but the local id. */
  function RemoteIds(ids: set<string>, playerId: Option<string>): (r: set<string>)
    ensures r <= ids
    ensures playerId.None? ==> r == ids
    ensures playerId.Some? ==> r == ids - {playerId.value}
    ensures playerId.Some? && playerId.value in ids ==> |r| == |ids| - 1
  {
    set k | k in ids && Some(k) != playerId
  }

  /** What `players:state` leaves for the id `k` with entry `e`, given the roster `r`. */
  function Synced(r: map<string, PlayerState>, k: string, e: StateEntry, now: real, respawnPosition: Vec3): PlayerState
  {
    if k in r then NetworkStep(r[k].(health := e.health, score := e.score), StateData(e), now)
    else InitialState(e.username, e.position, respawnPosition)
  }

  /** The roster after the entries of `states` with ids in `done` were applied. */
  function SyncAll(r: map<string, PlayerState>, states: map<string, StateEntry>, done: set<string>,
                   now: real, respawnOf: string -> Vec3): map<string, PlayerState>
    requires done <= states.Keys
  {
    map k | k in r.Keys + done :: if k in done then Synced(r, k, states[k], now, respawnOf(k)) else r[k]
  }

  /** Applying one more entry to the roster is one more map update. */
  lemma SyncAllStep(r: map<string, PlayerState>, states: map<string, StateEntry>, done: set<string>, k: string,
                    now: real, respawnOf: string -> Vec3)
    requires done <= states.Keys && k in states && k !in done
    ensures SyncAll(r, states, done + {k}, now, respawnOf) ==
      SyncAll(r, states, done, now, respawnOf)[k := Synced(SyncAll(r, states, done, now, respawnOf), k, states[k], now, respawnOf(k))]
  {
    var cur := SyncAll(r, states, done, now, respawnOf);
    assert (k in cur) == (k in r);
    assert k in r ==> cur[k] == r[k];
    assert Synced(cur, k, states[k], now, respawnOf(k)) == Synced(r, k, states[k], now, respawnOf(k));
  }

  /** The roster after the players of `roster` with ids in `done` were created. */
  function CreateAll(r: map<string, PlayerState>, roster: map<string, RosterEntry>, done: set<string>,
                     respawnOf: string -> Vec3): (r': map<string, PlayerState>)
    requires done <= roster.Keys
    ensures r'.Keys == r.Keys + done
    ensures forall k :: k in done ==> r'[k] == InitialState(roster[k].username, roster[k].position, respawnOf(k))
    ensures forall k :: k in r && k !in done ==> r'[k] == r[k]
  {
    map k | k in r.Keys + done :: if k in done then InitialState(roster[k].username, roster[k].position, respawnOf(k)) else r[k]
  }

  lemma CreateAllStep(r: map<string, PlayerState>, roster: map<string, RosterEntry>, done: set<string>, k: string,
                      respawnOf: string -> Vec3)
    requires done <= roster.Keys && k in roster && k !in done
    ensures CreateAll(r, roster, done + {k}, respawnOf) ==
      CreateAll(r, roster, done, respawnOf)[k := InitialState(roster[k].username, roster[k].position, respawnOf(k))]
  {
  }

  /** A `player:list` keeps the entry of the local id, creates every other listed player
      afresh at full health with no score and no history, and the same roster arriving a
      second time leaves the same states. */
  lemma PlayerListEffect(r: map<string, PlayerState>, roster: map<string, RosterEntry>, playerId: Option<string>,
                         respawnOf: string -> Vec3)
    ensures var ids := RemoteIds(roster.Keys, playerId);
      var r' := CreateAll(r, roster, ids, respawnOf);
      && r'.Keys == r.Keys + ids
      && (playerId.Some? && playerId.value in r ==> r'[playerId.value] == r[playerId.value])
      && (forall k :: k in roster && Some(k) != playerId ==>
            r'[k].health == MaxHealth && r'[k].score == 0 && r'[k].history == [])
      && CreateAll(r', roster, ids, respawnOf) == r'
  {
    var ids := RemoteIds(roster.Keys, playerId);
    var r' := CreateAll(r, roster, ids, respawnOf);
    var r'' := CreateAll(r', roster, ids, respawnOf);
    assert r''.Keys == r'.Keys;
    assert forall k :: k in r'' ==> r''[k] == r'[k];
  }

  /** A `players:state` message leaves local entries alone, gives known remote players
      the sent health and score, and creates the unknown ones at full health. */
  lemma {:induction false} SyncAllEffect(r: map<string, PlayerState>, states: map<string, StateEntry>, playerId: Option<string>,
                                         now: real, respawnOf: string -> Vec3)
    ensures var ids := RemoteIds(states.Keys, playerId);
      var r' := SyncAll(r, states, ids, now, respawnOf);
      && r'.Keys == r.Keys + ids
      && (forall k :: k in r && k !in ids ==> r'[k] == r[k])
      && (forall k :: k in ids && k in r ==> r'[k].health == states[k].health && r'[k].score == states[k].score)
      && (forall k :: k in ids && k !in r ==> r'[k].health == MaxHealth && r'[k].score == 0)
  {
    var ids := RemoteIds(states.Keys, playerId);
    var r' := SyncAll(r, states, ids, now, respawnOf);
    forall k | k in ids && k in r
      ensures r'[k].health == states[k].health && r'[k].score == states[k].score
    {
      DiscreteFieldsApplied(r[k].(health := states[k].health, score := states[k].score), StateData(states[k]), now);
    }
  }

  /** The known-player branch of `players:state`: health and score are copied,
      then the rest goes through `updateFromNetwork`. */
  method ApplyState(p: Player, data: StateEntry, now: real)
    requires p.Valid()
    modifies p
    ensures p.Valid()
    ensures p.State() == NetworkStep(old(p.State()).(health := data.health, score := data.score), StateData(data), now)
  {
    p.health := data.health;
    p.score := data.score;
    p.UpdateFromNetwork(StateData(data), now);
  }

  class Session {
    var connected: bool
    var reconnectAttempts: int
    /** A socket exists once `connect` has been called. */
    var hasSocket: bool
    var lastUpdateTime: real
    var lastPosition: Option<Vec3>
    var lastRotation: Option<Vec3>
    var lastVelocity: Option<Vec3>
    var outbox: seq<Outbound>

    function ThrottleState(): Throttle
      reads this
    {
      Throttle(lastUpdateTime, lastPosition, lastRotation, lastVelocity)
    }

    constructor ()
      ensures !connected && reconnectAttempts == 0 && !hasSocket && outbox == []
      ensures ThrottleState() == Throttle(0.0, None, None, None)
    {
      connected := false;
      reconnectAttempts := 0;
      hasSocket := false;
      lastUpdateTime := 0.0;
      lastPosition := None;
      lastRotation := None;
      lastVelocity := None;
      outbox := [];
    }

    /** `connect(username)` creates the socket. */
    method OpenSocket()
      modifies this
      ensures hasSocket && connected == old(connected) && reconnectAttempts == old(reconnectAttempts)
      ensures ThrottleState() == old(ThrottleState()) && outbox == old(outbox)
    {
      hasSocket := true;
    }

    /** The `connect` event: connected, the attempt counter reset, `player:join` sent. */
    method OnConnect(username: string)
      modifies this
      ensures connected && reconnectAttempts == 0 && hasSocket == old(hasSocket)
      ensures ThrottleState() == old(ThrottleState()) && outbox == old(outbox) + [Join(username)]
    {
      connected := true;
      reconnectAttempts := 0;
      outbox := outbox + [Join(username)];
    }

    /** The `reconnect_attempt` event stores the attempt number. */
    method OnReconnectAttempt(attemptNumber: int)
      modifies this
      ensures reconnectAttempts == attemptNumber && connected == old(connected) && hasSocket == old(hasSocket)
      ensures ThrottleState() == old(ThrottleState()) && outbox == old(outbox)
    {
      reconnectAttempts := attemptNumber;
    }

    /** The `reconnect` event: connected again and `player:join` re-sent. */
    method OnReconnect(username: string)
      modifies this
      ensures connected && reconnectAttempts == old(reconnectAttempts) && hasSocket == old(hasSocket)
      ensures ThrottleState() == old(ThrottleState()) && outbox == old(outbox) + [Join(username)]
    {
      connected := true;
      outbox := outbox + [Join(username)];
    }

    /** The `reconnect_failed` event. */
    method OnReconnectFailed()
      modifies this
      ensures !connected && reconnectAttempts == old(reconnectAttempts) && hasSocket == old(hasSocket)
      ensures ThrottleState() == old(ThrottleState()) && outbox == old(outbox)
    {
      connected := false;
    }

    /** The `disconnect` event: disconnected, and a running game ends. */
    method OnDisconnect(game: Game)
      requires game.Valid()
      modifies this, game
      ensures game.Valid()
      ensures !connected && reconnectAttempts == old(reconnectAttempts) && hasSocket == old(hasSocket)
      ensures ThrottleState() == old(ThrottleState()) && outbox == old(outbox)
      ensures game.View() == EndedView(old(game.View()))
    {
      connected := false;
      if game.isRunning {
        game.EndGame();
      }
    }

    /** `disconnect()`: with a socket, the connection is closed. */
    method Disconnect()
      modifies this
      ensures connected == (old(connected) && !old(hasSocket))
      ensures reconnectAttempts == old(reconnectAttempts) && hasSocket == old(hasSocket)
      ensures ThrottleState() == old(ThrottleState()) && outbox == old(outbox)
    {
      if hasSocket {
        connected := false;
      }
    }

    /** `sendPlayerUpdate({position, rotation, velocity})` at time `now`. */
    method SendPlayerUpdate(position: Vec3, rotation: Vec3, velocity: Vec3, now: real)
      modifies this
      ensures var (t, sent) := UpdateStep(old(ThrottleState()), old(connected), position, rotation, velocity, now);
        ThrottleState() == t && outbox == old(outbox) + (if sent.Some? then [sent.value] else [])
      ensures connected == old(connected) && reconnectAttempts == old(reconnectAttempts) && hasSocket == old(hasSocket)
    {
      if connected && now - lastUpdateTime > UpdateInterval {
        lastUpdateTime := now;
        var positionChanged := lastPosition.None? || DistSq(lastPosition.value, position) > ChangeThreshold * ChangeThreshold;
        var rotationChanged := lastRotation.None? || Abs(lastRotation.value.y - rotation.y) > ChangeThreshold;
        var velocityChanged := lastVelocity.None? || DistSq(lastVelocity.value, velocity) > ChangeThreshold * ChangeThreshold;
        if positionChanged || rotationChanged || velocityChanged {
          lastPosition := Some(position);
          lastRotation := Some(rotation);
          lastVelocity := Some(velocity);
          outbox := outbox + [PlayerUpdate(position, rotation, velocity, now)];
        }
      }
    }

    /** `sendShot(targetId)` at time `now`: sent only while connected. */
    method SendShot(targetId: string, now: real)
      modifies this
      ensures outbox == old(outbox) + (if old(connected) then [Shoot(targetId, now)] else [])
      ensures connected == old(connected) && reconnectAttempts == old(reconnectAttempts) && hasSocket == old(hasSocket)
      ensures ThrottleState() == old(ThrottleState())
    {
      if connected {
        outbox := outbox + [Shoot(targetId, now)];
      }
    }

    /** `sendPlayerDeath(killerId)` at time `now`: sent only while connected. */
    method SendPlayerDeath(killerId: string, now: real)
      modifies this
      ensures outbox == old(outbox) + (if old(connected) then [Death(killerId, now)] else [])
      ensures connected == old(connected) && reconnectAttempts == old(reconnectAttempts) && hasSocket == old(hasSocket)
      ensures ThrottleState() == old(ThrottleState())
    {
      if connected {
        outbox := outbox + [Death(killerId, now)];
      }
    }

    /** `sendPlayerRespawn()` at time `now`: sent only while connected. */
    method SendPlayerRespawn(now: real)
      modifies this
      ensures outbox == old(outbox) + (if old(connected) then [Respawn(now)] else [])
      ensures connected == old(connected) && reconnectAttempts == old(reconnectAttempts) && hasSocket == old(hasSocket)
      ensures ThrottleState() == old(ThrottleState())
    {
      if connected {
        outbox := outbox + [Respawn(now)];
      }
    }

    /** The oldest pending respawn timer of `handlePlayerDeath` fires at `now`. */
    method FireRespawnTimer(game: Game, now: real)
      modifies this, game
      ensures old(game.respawnTimers) != [] && old(game.respawnTimers)[0] <= now ==>
        game.View() == old(game.View()).(respawnTimers := old(game.respawnTimers)[1..]) &&
        outbox == old(outbox) + (if old(connected) then [Respawn(now)] else [])
      ensures !(old(game.respawnTimers) != [] && old(game.respawnTimers)[0] <= now) ==>
        game.View() == old(game.View()) && outbox == old(outbox)
      ensures connected == old(connected) && reconnectAttempts == old(reconnectAttempts) && hasSocket == old(hasSocket)
      ensures ThrottleState() == old(ThrottleState())
    {
      if game.respawnTimers != [] && game.respawnTimers[0] <= now {
        game.respawnTimers := game.respawnTimers[1..];
        SendPlayerRespawn(now);
      }
    }

    /** `game:start`: the local id is set and the local player created at the spawn sent
        (or (0, 5, 0)). */
    method OnGameStart(game: Game, playerId: string, username: string, position: Option<Vec3>, respawnPosition: Vec3)
      requires game.Valid()
      modifies game
      ensures game.Valid()
      ensures game.playerId == Some(playerId) && playerId in game.players
      ensures game.player == game.players[playerId] && fresh(game.player)
      ensures game.player.State() == InitialState(username, Some(if position.Some? then position.value else DefaultSpawn), respawnPosition)
      ensures forall k :: k in old(game.players) && k != playerId ==> k in game.players && game.players[k] == old(game.players)[k]
      ensures game.players.Keys == old(game.players).Keys + {playerId}
      ensures game.weapon != null && fresh(game.weapon) && game.weapon.State() == Weapons.Fresh()
      ensures game.View() == old(game.View()).(playerId := Some(playerId), players := old(game.players)[playerId := game.player],
        player := game.player, weapon := game.weapon)
    {
      game.playerId := Some(playerId);
      var p := game.CreatePlayer(playerId, username, Some(if position.Some? then position.value else DefaultSpawn), respawnPosition);
    }

    /** `player:joined`: the new player is created (replacing any with the same id). */
    method OnPlayerJoined(game: Game, playerId: string, username: string, position: Option<Vec3>, respawnPosition: Vec3)
      requires game.Valid()
      modifies game
      ensures game.Valid()
      ensures playerId in game.players && fresh(game.players[playerId])
      ensures game.players[playerId].State() == InitialState(username, Some(if position.Some? then position.value else DefaultSpawn), respawnPosition)
      ensures forall k :: k in old(game.players) && k != playerId ==> k in game.players && game.players[k] == old(game.players)[k]
      ensures game.players.Keys == old(game.players).Keys + {playerId}
      ensures old(game.playerId) == Some(playerId) ==>
        game.weapon != null && fresh(game.weapon) && game.weapon.State() == Weapons.Fresh() &&
        game.View() == old(game.View()).(players := old(game.players)[playerId := game.players[playerId]],
          player := game.players[playerId], weapon := game.weapon)
      ensures old(game.playerId) != Some(playerId) ==>
        game.View() == old(game.View()).(players := old(game.players)[playerId := game.players[playerId]])
    {
      var p := game.CreatePlayer(playerId, username, Some(if position.Some? then position.value else DefaultSpawn), respawnPosition);
    }

    /** `player:list`: a roster without the local id is a desync and reloads the page;
        otherwise every listed player but the local one is created afresh. */
    method OnPlayerList(game: Game, roster: map<string, RosterEntry>, respawnOf: string -> Vec3)
      requires game.Valid()
      modifies game
      ensures game.Valid()
      ensures JsKey(old(game.playerId)) !in roster ==> game.View() == old(game.View()).(reloaded := true)
      ensures JsKey(old(game.playerId)) in roster ==>
        && game.View() == old(game.View()).(players := game.players)
        && game.Roster() == CreateAll(old(game.Roster()), roster, RemoteIds(roster.Keys, old(game.playerId)), respawnOf)
    {
      if JsKey(game.playerId) !in roster {
        game.reloaded := true;
        return;
      }
      var ids := RemoteIds(roster.Keys, game.playerId);
      var todo := ids;
      while todo != {}
        invariant game.Valid()
        invariant todo <= ids
        invariant game.View() == old(game.View()).(players := game.players)
        invariant game.Roster() == CreateAll(old(game.Roster()), roster, ids - todo, respawnOf)
        decreases todo
      {
        var k :| k in todo;
        CreateAllStep(old(game.Roster()), roster, ids - todo, k, respawnOf);
        var p := game.CreatePlayer(k, roster[k].username, roster[k].position, respawnOf(k));
        MoveToDone(ids, todo, k);
        todo := todo - {k};
      }
      NothingLeft(ids, todo);
    }

    /** `player:left`. */
    method OnPlayerLeft(game: Game, playerId: string)
      requires game.Valid()
      modifies game
      ensures game.Valid()
      ensures game.View() == old(game.View()).(players := old(game.players) - {playerId})
    {
      game.RemovePlayer(playerId);
    }

    /** `player:update`: updates about the local id are ignored. */
    method OnPlayerUpdate(game: Game, playerId: string, data: NetData, now: real)
      requires game.Valid()
      modifies game.players.Values
      ensures game.Valid()
      ensures Some(playerId) == game.playerId ==> unchanged(game.players.Values)
      ensures Some(playerId) != game.playerId && playerId in game.players && !(data.health.Some? && data.health.value <= 0) ==>
        game.players[playerId].State() == NetworkStep(old(game.players[playerId].State()), data, now) &&
        forall k :: k in game.players && k != playerId ==> unchanged(game.players[k])
      ensures Some(playerId) != game.playerId && (playerId !in game.players || (data.health.Some? && data.health.value <= 0)) ==>
        unchanged(game.players.Values)
    {
      if Some(playerId) != game.playerId {
        game.UpdatePlayer(playerId, data, now);
      }
    }

    /** `player:hit`: only a hit on the local id damages the local player, possibly
        ending the game; with no local player the handler throws before any change. */
    method OnPlayerHit(game: Game, targetId: string, damage: int)
      requires game.Valid()
      modifies game, game.player
      ensures game.Valid()
      ensures Some(targetId) != old(game.playerId) || old(game.player) == null ==>
        game.View() == old(game.View()) && (old(game.player) == null || unchanged(old(game.player)))
      ensures Some(targetId) == old(game.playerId) && old(game.player) != null ==>
        old(game.player).State() == old(game.player.State()).(health := DamagedHealth(old(game.player.health), damage)) &&
        game.View() == (if old(game.player).health <= 0 then EndedView(old(game.View())) else old(game.View()))
    {
      if Some(targetId) == game.playerId {
        if game.player == null {
          return;
        }
        var died := game.player.TakeDamage(damage);
        if died {
          game.EndGame();
        }
      }
    }

    /** `player:died`. */
    method OnPlayerDied(game: Game, deadId: string, killerId: string, now: real)
      requires game.Valid()
      modifies game, game.players.Values
      ensures game.Valid()
      ensures Some(deadId) == old(game.playerId) ==> game.View() == old(game.View()).(reloaded := true)
      ensures Some(deadId) != old(game.playerId) ==>
        game.View() == old(game.View()).(
          score := old(game.score) + (if Some(killerId) == old(game.playerId) then KillBonus else 0),
          killLog := if deadId in old(game.players) && killerId in old(game.players)
            then AddKill(old(game.KillLogState()), old(game.players[killerId].username), old(game.players[deadId].username), now)
            else old(game.KillLogState()))
      ensures Some(deadId) == old(game.playerId) ==> unchanged(old(game.players).Values)
      ensures Some(deadId) != old(game.playerId) && deadId in old(game.players) ==>
        old(game.players)[deadId].health == 0 &&
        old(game.players)[deadId].State() == old(game.players[deadId].State()).(health := 0) &&
        forall k :: k in old(game.players) && k != deadId ==> unchanged(old(game.players)[k])
      ensures Some(deadId) != old(game.playerId) && deadId !in old(game.players) ==> unchanged(old(game.players).Values)
    {
      game.PlayerDied(deadId, killerId, now);
    }

    /** One entry of `players:state` for the non-local id `k`: a known player gets the
        health and score and then `updateFromNetwork`; an unknown one is created. */
    method SyncEntry(game: Game, k: string, data: StateEntry, now: real, respawnPosition: Vec3)
      requires game.Valid() && Some(k) != game.playerId
      modifies game, game.players.Values
      ensures game.Valid()
      ensures game.View() == old(game.View()).(players := game.players)
      ensures game.Roster() == old(game.Roster())[k := Synced(old(game.Roster()), k, data, now, respawnPosition)]
      ensures forall q :: q in game.players.Values ==> q in old(game.players.Values) || fresh(q)
    {
      if k in game.players {
        SyncKnown(game, k, data, now);
      } else {
        var p := game.CreatePlayer(k, data.username, data.position, respawnPosition);
      }
    }

    /** The known-player case of `SyncEntry`. */
    method SyncKnown(game: Game, k: string, data: StateEntry, now: real)
      requires game.Valid() && k in game.players
      modifies game.players[k]
      ensures game.Valid()
      ensures game.Roster() == old(game.Roster())[k := NetworkStep(old(game.Roster())[k].(health := data.health, score := data.score), StateData(data), now)]
    {
      ApplyState(game.players[k], data, now);
    }

    /** `players:state`: every entry but the local id updates the known player (health and
        score copied, then `updateFromNetwork`) or creates an unknown one. */
    method OnPlayersState(game: Game, states: map<string, StateEntry>, now: real, respawnOf: string -> Vec3)
      requires game.Valid()
      modifies game, game.players.Values
      ensures game.Valid()
      ensures game.View() == old(game.View()).(players := game.players)
      ensures game.Roster() == SyncAll(old(game.Roster()), states, RemoteIds(states.Keys, old(game.playerId)), now, respawnOf)
    {
      var ids := RemoteIds(states.Keys, game.playerId);
      var todo := ids;
      while todo != {}
        invariant game.Valid()
        invariant todo <= ids
        invariant game.View() == old(game.View()).(players := game.players)
        invariant game.Roster() == SyncAll(old(game.Roster()), states, ids - todo, now, respawnOf)
        invariant forall q :: q in game.players.Values ==> q in old(game.players.Values) || fresh(q)
        decreases todo
      {
        var k :| k in todo;
        SyncAllStep(old(game.Roster()), states, ids - todo, k, now, respawnOf);
        SyncEntry(game, k, states[k], now, respawnOf(k));
        MoveToDone(ids, todo, k);
        todo := todo - {k};
      }
      NothingLeft(ids, todo);
    }
  }
}
