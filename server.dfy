/** The authoritative bookkeeping of app.py: the `players` dictionary, the per-player
    position history (a deque of at most ten entries) and the events each Socket.IO
    handler emits. The socket id of the caller, the clock and the random picks are
    parameters; emitted events are appended to an outbox together with their audience. */
module Server {
  import opened Common
  import opened Geometry

  /** Damage of one `player:shoot`, and the health a player joins and respawns with. */
  const Damage: int := 5
  const FullHealth: int := 100
  /** `deque(maxlen=10)`. */
  const HistoryLength: nat := 10
  /** `find_safe_spawn_point` tries this many random picks before a last, unchecked one. */
  const Attempts: nat := 10
  /** A spawn is safe when its horizontal distance to every other position exceeds 5. */
  const MinSpawnDistance: real := 5.0

  /** The nine fixed `respawn_points`. */
  const RespawnPoints: seq<Vec3> := [
    Vec3(-40.0, 5.0, -40.0), Vec3(40.0, 5.0, -40.0), Vec3(-40.0, 5.0, 40.0), Vec3(40.0, 5.0, 40.0),
    Vec3(0.0, 5.0, 0.0), Vec3(20.0, 5.0, -20.0), Vec3(-20.0, 5.0, 20.0), Vec3(-20.0, 5.0, -20.0),
    Vec3(20.0, 5.0, 20.0)]

  /** One entry of `game_state['players']`; `velocity` is absent until the first update
      that carries one. No handler ever stores a score. */
  datatype ServerPlayer = ServerPlayer(username: Option<string>, position: Vec3, rotation: Vec3,
                                       velocity: Option<Vec3>, health: int, lastUpdate: real)

  /** One entry of a `player_positions` deque. */
  datatype HistoryEntry = HistoryEntry(position: Vec3, timestamp: real)

  /** The fields of a `player:update` message that the server looks at. */
  datatype UpdateData = UpdateData(position: Option<Vec3>, rotation: Option<Vec3>, velocity: Option<Vec3>,
                                   timestamp: Option<real>)

  /** One entry of the `players:state` broadcast that follows a non-lethal hit. */
  datatype BroadcastEntry = BroadcastEntry(username: Option<string>, position: Vec3, health: int,
                                           score: int, awf: int, timestamp: real)

  datatype Audience = Sender | Others | Everyone

  datatype Event =
    | GameStart(playerId: string, position: Vec3, health: int, timestamp: real)
    | PlayerJoined(playerId: string, username: Option<string>, position: Vec3, health: int, timestamp: real)
    | PlayerList(players: map<string, ServerPlayer>)
    | PlayerMoved(playerId: string, data: UpdateData, timestamp: real)
    | PlayerDied(deadId: string, killerId: string, timestamp: real, health: int)
    | GameOver(deadId: string, killerId: string, timestamp: real)
    | PlayerHit(targetId: string, shooterId: string, health: int, damage: int, timestamp: real)
    | PlayersState(entries: map<string, BroadcastEntry>)
    | PlayerRespawned(playerId: string, position: Vec3, health: int, timestamp: real)
    | PlayerLeft(playerId: string, timestamp: real)

  datatype Outgoing = Outgoing(audience: Audience, event: Event)

  datatype ServerState = ServerState(players: map<string, ServerPlayer>,
                                     positions: map<string, seq<HistoryEntry>>,
                                     outbox: seq<Outgoing>)

  /** What every handler keeps: the two dictionaries have the same keys, every history
      holds between one and ten entries, and health is a multiple of 5 in [0, 100]. */
  predicate ValidState(s: ServerState)
  {
    && s.players.Keys == s.positions.Keys
    && (forall k :: k in s.positions ==> 1 <= |s.positions[k]| <= HistoryLength)
    && (forall k :: k in s.players ==> 0 <= s.players[k].health <= FullHealth && s.players[k].health % Damage == 0)
  }

  /** `deque.append` on a deque of at most ten entries: the newest entry goes last and the
      oldest one is dropped once the deque is full. */
  function Push(h: seq<HistoryEntry>, e: HistoryEntry): (r: seq<HistoryEntry>)
    requires |h| <= HistoryLength
    ensures |r| == if |h| < HistoryLength then |h| + 1 else HistoryLength
    ensures r[|r| - 1] == e
    ensures r == (h + [e])[|h| + 1 - |r|..]
  {
    if |h| < HistoryLength then h + [e] else h[1..] + [e]
  }

  /* ---- handle_player_join ---- */

  function JoinStep(s: ServerState, sid: string, username: Option<string>, pick: nat, now: real): ServerState
    requires pick < |RespawnPoints|
  {
    var spawn := RespawnPoints[pick];
    var players := s.players[sid := ServerPlayer(username, spawn, Zero, None, FullHealth, now)];
    ServerState(players, s.positions[sid := [HistoryEntry(spawn, now)]],
      s.outbox + [Outgoing(Sender, GameStart(sid, spawn, FullHealth, now)),
                  Outgoing(Others, PlayerJoined(sid, username, spawn, FullHealth, now)),
                  Outgoing(Sender, PlayerList(players))])
  }

  /** A join registers the caller at full health on one of the respawn points, with a
      history of exactly that spawn, and touches no other player. */
  lemma JoinRegisters(s: ServerState, sid: string, username: Option<string>, pick: nat, now: real)
    requires pick < |RespawnPoints|
    ensures var r := JoinStep(s, sid, username, pick, now);
      && r.players.Keys == s.players.Keys + {sid}
      && r.players[sid].health == FullHealth && r.players[sid].position in RespawnPoints
      && r.positions[sid] == [HistoryEntry(r.players[sid].position, now)]
      && (forall k :: k in s.players && k in s.positions && k != sid ==> r.players[k] == s.players[k] && r.positions[k] == s.positions[k])
      && r.outbox[|s.outbox|] == Outgoing(Sender, GameStart(sid, r.players[sid].position, FullHealth, now))
  {
  }

  /* ---- handle_player_update ---- */

  function UpdateStep(s: ServerState, sid: string, data: UpdateData, now: real): ServerState
    requires ValidState(s)
  {
    if sid !in s.players then s
    else
      var p := s.players[sid];
      var p1 := if data.position.Some? then p.(position := data.position.value) else p;
      var p2 := if data.rotation.Some? then p1.(rotation := data.rotation.value) else p1;
      var p3 := if data.velocity.Some? then p2.(velocity := data.velocity) else p2;
      var stamp := if data.timestamp.Some? then data.timestamp.value else now;
      var positions := if data.position.Some?
        then s.positions[sid := Push(s.positions[sid], HistoryEntry(data.position.value, stamp))]
        else s.positions;
      ServerState(s.players[sid := p3.(lastUpdate := now)], positions,
        s.outbox + [Outgoing(Others, PlayerMoved(sid, data, now))])
  }

  /** An update from an unregistered sid changes nothing. */
  lemma UpdateIgnoresUnknown(s: ServerState, sid: string, data: UpdateData, now: real)
    requires ValidState(s) && sid !in s.players
    ensures UpdateStep(s, sid, data, now) == s
  {
  }

  /** A registered sender's position goes to the end of its history, which stays capped at
      ten with the oldest entry dropped. */
  lemma UpdateRecordsPosition(s: ServerState, sid: string, data: UpdateData, now: real)
    requires ValidState(s) && sid in s.players && data.position.Some?
    ensures var h := s.positions[sid];
      var r := UpdateStep(s, sid, data, now).positions[sid];
      && r[|r| - 1].position == data.position.value
      && |r| == (if |h| < HistoryLength then |h| + 1 else HistoryLength)
      && r[..|r| - 1] == h[|h| + 1 - |r|..]
  {
    var h := s.positions[sid];
    var e := HistoryEntry(data.position.value, if data.timestamp.Some? then data.timestamp.value else now);
    var r := Push(h, e);
    assert UpdateStep(s, sid, data, now).positions[sid] == r;
    assert (h + [e])[|h| + 1 - |r|..][..|r| - 1] == h[|h| + 1 - |r|..];
  }

  /** A registered sender takes the message's position when it has one and keeps its health. */
  lemma UpdateMovesPlayer(s: ServerState, sid: string, data: UpdateData, now: real)
    requires ValidState(s) && sid in s.players
    ensures var r := UpdateStep(s, sid, data, now);
      && r.players.Keys == s.players.Keys
      && r.players[sid].health == s.players[sid].health
      && r.players[sid].position == (if data.position.Some? then data.position.value else s.players[sid].position)
      && (forall k :: k in s.players && k != sid ==> r.players[k] == s.players[k])
  {
  }

  /* ---- handle_player_shoot ---- */

  /** The `players:state` payload: every player's name, position and health, with the
      score and `awf` fields that are never stored read as 0. */
  function Broadcast(players: map<string, ServerPlayer>, now: real): (m: map<string, BroadcastEntry>)
    ensures m.Keys == players.Keys
    ensures forall k :: k in m ==> m[k].health == players[k].health && m[k].score == 0
  {
    map k | k in players :: BroadcastEntry(players[k].username, players[k].position, players[k].health, 0, 0, now)
  }

  function ShootStep(s: ServerState, shooter: string, target: Option<string>, now: real): ServerState
  {
    if target.Some? && shooter in s.players && target.value in s.players then
      var t := target.value;
      var health := s.players[t].health - Damage;
      if health <= 0 then
        s.(players := s.players[t := s.players[t].(health := 0)],
           outbox := s.outbox + [Outgoing(Everyone, PlayerDied(t, shooter, now, 0)),
                                 Outgoing(Everyone, GameOver(t, shooter, now))])
      else
        var players := s.players[t := s.players[t].(health := health)];
        s.(players := players,
           outbox := s.outbox + [Outgoing(Everyone, PlayerHit(t, shooter, health, Damage, now)),
                                 Outgoing(Everyone, PlayersState(Broadcast(players, now)))])
    else s
  }

  /** A shot counts only when both the shooter and the target are registered; it then
      takes exactly 5 health, never leaving it negative, and reports a death exactly when
      it reaches 0 and a hit of 5 damage otherwise. Nothing but the target's health changes. */
  lemma ShotEffect(s: ServerState, shooter: string, target: Option<string>, now: real)
    ensures !(target.Some? && shooter in s.players && target.value in s.players) ==> ShootStep(s, shooter, target, now) == s
    ensures target.Some? && shooter in s.players && target.value in s.players ==>
      var t := target.value;
      var h := s.players[t].health;
      var r := ShootStep(s, shooter, target, now);
      && r.players.Keys == s.players.Keys && r.positions == s.positions
      && r.players[t] == s.players[t].(health := if h - Damage <= 0 then 0 else h - Damage)
      && (forall k :: k in s.players && k != t ==> r.players[k] == s.players[k])
      && |r.outbox| == |s.outbox| + 2 && r.outbox[..|s.outbox|] == s.outbox
      && (h - Damage <= 0 <==> r.outbox[|s.outbox|] == Outgoing(Everyone, PlayerDied(t, shooter, now, 0)))
      && (h - Damage > 0 ==> r.outbox[|s.outbox|] == Outgoing(Everyone, PlayerHit(t, shooter, h - Damage, Damage, now)))
  {
  }

  /** After a hit that does not kill, the `players:state` broadcast lists every player with
      its stored position, the target at its health lowered by 5, every other player at
      its health as it was, and a score of 0 for all. */
  lemma HitBroadcastReportsHealth(s: ServerState, shooter: string, target: string, now: real)
    requires shooter in s.players && target in s.players && s.players[target].health - Damage > 0
    ensures var r := ShootStep(s, shooter, Some(target), now);
      && |r.outbox| == |s.outbox| + 2
      && r.outbox[|s.outbox| + 1].audience == Everyone
      && r.outbox[|s.outbox| + 1].event.PlayersState?
      && var m := r.outbox[|s.outbox| + 1].event.entries;
         && m.Keys == s.players.Keys
         && m[target].health == s.players[target].health - Damage
         && (forall k :: k in m && k != target ==> m[k].health == s.players[k].health)
         && (forall k :: k in m ==> m[k].position == s.players[k].position && m[k].score == 0)
  {
  }

  /** `n` shots in a row from `shooter` at `target`. */
  function ShootTimes(s: ServerState, shooter: string, target: string, n: nat, now: real): ServerState
  {
    if n == 0 then s else ShootStep(ShootTimes(s, shooter, target, n - 1, now), shooter, Some(target), now)
  }

  /** After `n` shots between registered players the target's health is `max(0, h - 5n)`. */
  lemma {:induction false} RepeatedShots(s: ServerState, shooter: string, target: string, n: nat, now: real)
    requires shooter in s.players && target in s.players && s.players[target].health >= 0
    ensures var r := ShootTimes(s, shooter, target, n, now);
      && r.players.Keys == s.players.Keys
      && r.players[target].health == if s.players[target].health - Damage * n <= 0 then 0 else s.players[target].health - Damage * n
  {
    if n > 0 {
      RepeatedShots(s, shooter, target, n - 1, now);
      ShotEffect(ShootTimes(s, shooter, target, n - 1, now), shooter, Some(target), now);
    }
  }

  /** From full health, nineteen shots leave the target alive at 5 and the twentieth
      kills it and announces the death. */
  lemma TwentiethShotKills(s: ServerState, shooter: string, target: string, now: real)
    requires shooter in s.players && target in s.players && s.players[target].health == FullHealth
    ensures target in ShootTimes(s, shooter, target, 19, now).players
    ensures ShootTimes(s, shooter, target, 19, now).players[target].health == 5
    ensures target in ShootTimes(s, shooter, target, 20, now).players
    ensures var before := ShootTimes(s, shooter, target, 19, now);
      var after := ShootTimes(s, shooter, target, 20, now);
      && after.players[target].health == 0
      && after.outbox == before.outbox + [Outgoing(Everyone, PlayerDied(target, shooter, now, 0)),
                                          Outgoing(Everyone, GameOver(target, shooter, now))]
  {
    RepeatedShots(s, shooter, target, 19, now);
    RepeatedShots(s, shooter, target, 20, now);
  }

  /* ---- find_safe_spawn_point ---- */

  /** No occupied position is within 5 units (horizontally) of `spawn`; a position equal to
      the respawning player's own one, the player's own included, is not counted. */
  predicate SafeFrom(players: map<string, ServerPlayer>, sid: string, spawn: Vec3)
    requires sid in players
  {
    forall k :: k in players && players[k].position != players[sid].position ==>
      FlatDistSq(spawn.x, spawn.z, players[k].position.x, players[k].position.z) > MinSpawnDistance * MinSpawnDistance
  }

  predicate ValidPicks(picks: seq<nat>)
  {
    |picks| == Attempts + 1 && forall i :: 0 <= i < |picks| ==> picks[i] < |RespawnPoints|
  }

  /** The spawn chosen from attempt `i` on: the first safe pick among the ten attempts,
      else the eleventh, unchecked pick. */
  function FirstSafe(players: map<string, ServerPlayer>, sid: string, picks: seq<nat>, i: nat): Vec3
    requires sid in players && ValidPicks(picks) && i <= Attempts
    decreases Attempts - i
  {
    if i == Attempts then RespawnPoints[picks[Attempts]]
    else if SafeFrom(players, sid, RespawnPoints[picks[i]]) then RespawnPoints[picks[i]]
    else FirstSafe(players, sid, picks, i + 1)
  }

  /** The spawn is always one of the respawn points; it is the first safe attempt when
      there is one (so it is safe), and the fallback pick otherwise. */
  lemma {:induction false} FirstSafeChoice(players: map<string, ServerPlayer>, sid: string, picks: seq<nat>, i: nat)
    requires sid in players && ValidPicks(picks) && i <= Attempts
    decreases Attempts - i
    ensures FirstSafe(players, sid, picks, i) in RespawnPoints
    ensures forall j :: i <= j < Attempts && SafeFrom(players, sid, RespawnPoints[picks[j]]) ==>
      SafeFrom(players, sid, FirstSafe(players, sid, picks, i))
    ensures (forall j :: i <= j < Attempts ==> !SafeFrom(players, sid, RespawnPoints[picks[j]])) ==>
      FirstSafe(players, sid, picks, i) == RespawnPoints[picks[Attempts]]
  {
    if i < Attempts && !SafeFrom(players, sid, RespawnPoints[picks[i]]) {
      FirstSafeChoice(players, sid, picks, i + 1);
    }
  }

  /* ---- handle_player_respawn ---- */

  /** The intended effect of `player:respawn`: back to full health at a safe spawn, with a
      history of exactly that spawn. */
  function RespawnStep(s: ServerState, sid: string, picks: seq<nat>, now: real): ServerState
    requires ValidPicks(picks)
  {
    if sid !in s.players then s
    else
      var spawn := FirstSafe(s.players, sid, picks, 0);
      ServerState(s.players[sid := s.players[sid].(position := spawn, health := FullHealth, lastUpdate := now)],
                  s.positions[sid := [HistoryEntry(spawn, now)]],
                  s.outbox + [Outgoing(Everyone, PlayerRespawned(sid, spawn, FullHealth, now))])
  }

  /** A respawn restores full health and resets the history to the one new spawn, which is
      a respawn point; an unregistered sid changes nothing. */
  lemma RespawnResets(s: ServerState, sid: string, picks: seq<nat>, now: real)
    requires ValidPicks(picks)
    ensures sid !in s.players ==> RespawnStep(s, sid, picks, now) == s
    ensures sid in s.players ==>
      var r := RespawnStep(s, sid, picks, now);
      && r.players.Keys == s.players.Keys
      && r.players[sid].health == FullHealth
      && r.players[sid].position in RespawnPoints
      && r.positions[sid] == [HistoryEntry(r.players[sid].position, now)]
      && (forall k :: k in s.players && k != sid ==> r.players[k] == s.players[k])
  {
    if sid in s.players {
      FirstSafeChoice(s.players, sid, picks, 0);
    }
  }

  /** As written, the handler's parameter is named `request`, so `request.sid` reads the
      message instead of the Flask request and raises before any state changes. */
  function RespawnAsWrittenStep(s: ServerState, sid: string, picks: seq<nat>, now: real): ServerState
  {
    s
  }

  /** As written, a player killed by a shot is still at 0 health after asking to respawn. */
  lemma RespawnAsWrittenKeepsDead(s: ServerState, sid: string, picks: seq<nat>, now: real)
    requires ValidPicks(picks) && sid in s.players && s.players[sid].health == 0
    ensures RespawnAsWrittenStep(s, sid, picks, now).players[sid].health == 0
    ensures RespawnStep(s, sid, picks, now).players[sid].health == FullHealth
  {
  }

  /* ---- handle_disconnect ---- */

  function DisconnectStep(s: ServerState, sid: string, now: real): ServerState
  {
    if sid !in s.players then s
    else ServerState(s.players - {sid}, s.positions - {sid}, s.outbox + [Outgoing(Everyone, PlayerLeft(sid, now))])
  }

  /** A disconnect forgets the sid in both dictionaries and keeps every other entry; for
      an unknown sid it is a no-op. */
  lemma DisconnectForgets(s: ServerState, sid: string, now: real)
    ensures sid !in s.players ==> DisconnectStep(s, sid, now) == s
    ensures sid in s.players ==>
      var r := DisconnectStep(s, sid, now);
      && r.players.Keys == s.players.Keys - {sid} && sid !in r.positions
      && (forall k :: k in r.players ==> r.players[k] == s.players[k])
      && (forall k :: k in r.positions ==> r.positions[k] == s.positions[k])
  {
  }

  /** Every handler keeps the server's invariant. */
  lemma JoinKeepsValid(s: ServerState, sid: string, username: Option<string>, pick: nat, now: real)
    requires ValidState(s) && pick < |RespawnPoints|
    ensures ValidState(JoinStep(s, sid, username, pick, now))
  {
  }

  lemma UpdateKeepsValid(s: ServerState, sid: string, data: UpdateData, now: real)
    requires ValidState(s)
    ensures ValidState(UpdateStep(s, sid, data, now))
  {
  }

  lemma ShootKeepsValid(s: ServerState, shooter: string, target: Option<string>, now: real)
    requires ValidState(s)
    ensures ValidState(ShootStep(s, shooter, target, now))
  {
    if target.Some? && shooter in s.players && target.value in s.players {
      var h := s.players[target.value].health;
      assert h - Damage <= 0 || (0 <= h - Damage <= FullHealth && (h - Damage) % Damage == 0);
    }
  }

  lemma RespawnKeepsValid(s: ServerState, sid: string, picks: seq<nat>, now: real)
    requires ValidState(s) && ValidPicks(picks)
    ensures ValidState(RespawnStep(s, sid, picks, now))
  {
  }

  lemma DisconnectKeepsValid(s: ServerState, sid: string, now: real)
    requires ValidState(s)
    ensures ValidState(DisconnectStep(s, sid, now))
  {
  }

  /** The server's two dictionaries and the events it has emitted. */
  class GameServer {
    var players: map<string, ServerPlayer>
    var positions: map<string, seq<HistoryEntry>>
    var outbox: seq<Outgoing>

    function State(): ServerState
      reads this
    {
      ServerState(players, positions, outbox)
    }

    predicate Valid()
      reads this
    {
      ValidState(State())
    }

    constructor()
      ensures State() == ServerState(map[], map[], [])
      ensures Valid()
    {
      players := map[];
      positions := map[];
      outbox := [];
    }

    /** `handle_player_join`; `pick` is `random.choice`'s index into the respawn points. */
    method Join(sid: string, username: Option<string>, pick: nat, now: real)
      requires Valid() && pick < |RespawnPoints|
      modifies this
      ensures State() == JoinStep(old(State()), sid, username, pick, now)
      ensures Valid()
    {
      JoinKeepsValid(State(), sid, username, pick, now);
      var spawn := RespawnPoints[pick];
      players := players[sid := ServerPlayer(username, spawn, Zero, None, FullHealth, now)];
      positions := positions[sid := [HistoryEntry(spawn, now)]];
      outbox := outbox + [Outgoing(Sender, GameStart(sid, spawn, FullHealth, now)),
                          Outgoing(Others, PlayerJoined(sid, username, spawn, FullHealth, now)),
                          Outgoing(Sender, PlayerList(players))];
    }

    /** `handle_player_update`. */
    method Update(sid: string, data: UpdateData, now: real)
      requires Valid()
      modifies this
      ensures State() == UpdateStep(old(State()), sid, data, now)
      ensures Valid()
    {
      UpdateKeepsValid(State(), sid, data, now);
      if sid in players {
        var p := players[sid];
        if data.position.Some? {
          p := p.(position := data.position.value);
          var stamp := if data.timestamp.Some? then data.timestamp.value else now;
          positions := positions[sid := Push(positions[sid], HistoryEntry(data.position.value, stamp))];
        }
        if data.rotation.Some? {
          p := p.(rotation := data.rotation.value);
        }
        if data.velocity.Some? {
          p := p.(velocity := data.velocity);
        }
        players := players[sid := p.(lastUpdate := now)];
        outbox := outbox + [Outgoing(Others, PlayerMoved(sid, data, now))];
      }
    }

    /** `handle_player_shoot` from `shooter`, with the message's `targetId`. */
    method Shoot(shooter: string, target: Option<string>, now: real)
      requires Valid()
      modifies this
      ensures State() == ShootStep(old(State()), shooter, target, now)
      ensures Valid()
    {
      ShootKeepsValid(State(), shooter, target, now);
      ghost var after := ShootStep(State(), shooter, target, now);
      if target.Some? && shooter in players && target.value in players {
        var t := target.value;
        var health := players[t].health - Damage;
        if health <= 0 {
          players := players[t := players[t].(health := 0)];
          outbox := outbox + [Outgoing(Everyone, PlayerDied(t, shooter, now, 0)),
                              Outgoing(Everyone, GameOver(t, shooter, now))];
          assert players == after.players && outbox == after.outbox;
        } else {
          players := players[t := players[t].(health := health)];
          outbox := outbox + [Outgoing(Everyone, PlayerHit(t, shooter, health, Damage, now)),
                              Outgoing(Everyone, PlayersState(Broadcast(players, now)))];
          assert players == after.players && outbox == after.outbox;
        }
      }
    }

    /** `find_safe_spawn_point`: up to ten random picks, each kept if it is safe, then an
        eleventh pick taken unchecked. */
    method FindSafeSpawnPoint(sid: string, picks: seq<nat>) returns (spawn: Vec3)
      requires sid in players && ValidPicks(picks)
      ensures spawn == FirstSafe(players, sid, picks, 0)
    {
      var attempt := 0;
      while attempt < Attempts
        invariant 0 <= attempt <= Attempts
        invariant FirstSafe(players, sid, picks, attempt) == FirstSafe(players, sid, picks, 0)
      {
        spawn := RespawnPoints[picks[attempt]];
        if SafeFrom(players, sid, spawn) {
          return;
        }
        attempt := attempt + 1;
      }
      spawn := RespawnPoints[picks[Attempts]];
    }

    /** `handle_player_respawn`, with its intended reading of the caller's sid. */
    method Respawn(sid: string, picks: seq<nat>, now: real)
      requires Valid() && ValidPicks(picks)
      modifies this
      ensures State() == RespawnStep(old(State()), sid, picks, now)
      ensures Valid()
    {
      RespawnKeepsValid(State(), sid, picks, now);
      if sid in players {
        var spawn := FindSafeSpawnPoint(sid, picks);
        players := players[sid := players[sid].(position := spawn, health := FullHealth, lastUpdate := now)];
        positions := positions[sid := [HistoryEntry(spawn, now)]];
        outbox := outbox + [Outgoing(Everyone, PlayerRespawned(sid, spawn, FullHealth, now))];
      }
    }

    /** `handle_disconnect`. */
    method Disconnect(sid: string, now: real)
      requires Valid()
      modifies this
      ensures State() == DisconnectStep(old(State()), sid, now)
      ensures Valid()
    {
      DisconnectKeepsValid(State(), sid, now);
      if sid in players {
        players := players - {sid};
        if sid in positions {
          positions := positions - {sid};
        }
        outbox := outbox + [Outgoing(Everyone, PlayerLeft(sid, now))];
      }
    }
  }
}
