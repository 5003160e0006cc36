/** The game session (static/js/game.js): the registry of player objects keyed by id,
    the local player and weapon, score accrual from hits and kills, distance damage
    falloff, the time-deduplicated kill log, death handling, ending and restarting a
    game, and the overlap test that makes the local player respawn. Times are ms. */
module Games {
  import opened Common
  import opened Geometry
  import opened Weapons
  import opened Players

  const BaseDamage: int := 5
  /** Beyond this distance a hit does no damage. */
  const MaxDistance: real := 100.0
  /** At `MaxDistance` the damage is multiplied by 1 - 0.5. */
  const DamageFalloff: real := 0.5
  const KillBonus: int := 50
  /** A kill-log entry less than this long after the previous one is dropped. */
  const KillSpamWindow: real := 100.0
  const KillLogTimeout: real := 5000.0
  /** The fade-out after which an entry leaves the kill log. */
  const KillLogFade: real := 500.0
  /** Another player closer than this counts as an overlap. */
  const CollisionDistance: real := 2.0
  const RespawnDelay: real := 3000.0
  /** Side of the square around the origin that `respawnPlayer` draws from. */
  const RespawnSpread: real := 40.0

  // ---------------------------------------------------------------- damage

  /** A distance as `calculateDistance` returns it: a number or `Infinity`. */
  datatype Distance = Finite(value: real) | Infinity

  predicate OutOfRange(d: Distance)
  {
    d.Infinity? || d.value > MaxDistance
  }

  /** `calculateDamage(baseDamage, distance)`. */
  function CalculateDamage(baseDamage: int, distance: Distance): (r: int)
    ensures OutOfRange(distance) ==> r == 0
    ensures baseDamage >= 0 ==> r >= 0
    ensures baseDamage >= 0 && (distance.Finite? ==> distance.value >= 0.0) ==> r <= baseDamage
  {
    if OutOfRange(distance) then 0
    else
      var b := baseDamage as real;
      var m := 1.0 - (distance.value / MaxDistance) * DamageFalloff;
      assert baseDamage >= 0 ==> b * m >= 0.0 by {
        if baseDamage >= 0 { ScaleMonotone(b, 0.0, m); }
      }
      assert baseDamage >= 0 && distance.value >= 0.0 ==> b * m <= b by {
        if baseDamage >= 0 && distance.value >= 0.0 { ScaleMonotone(b, m, 1.0); }
      }
      (b * m).Floor
  }

  lemma ScaleMonotone(b: real, x: real, y: real)
    requires b >= 0.0 && x <= y
    ensures b * x <= b * y
  {
    assert b * (y - x) >= 0.0 * (y - x);
    assert b * y - b * x == b * (y - x);
  }

  lemma FloorMonotone(x: real, y: real)
    requires x <= y
    ensures x.Floor <= y.Floor
  {
  }

  /** Inside the range the damage lies between half the base damage (rounded down)
      and the full base damage. */
  lemma DamageBounds(baseDamage: int, d: real)
    requires baseDamage >= 0 && 0.0 <= d <= MaxDistance
    ensures (baseDamage as real / 2.0).Floor <= CalculateDamage(baseDamage, Finite(d)) <= baseDamage
  {
    var b := baseDamage as real;
    var m := 1.0 - (d / MaxDistance) * DamageFalloff;
    assert 0.5 <= m <= 1.0;
    assert b * m <= b * 1.0 by { assert b * (1.0 - m) >= 0.0 * (1.0 - m); }
    assert b * m >= b * 0.5 by { assert b * (m - 0.5) >= 0.0 * (m - 0.5); }
    FloorMonotone(b / 2.0, b * m);
    FloorMonotone(b * m, b);
  }

  /** Damage does not increase with distance. */
  lemma DamageNonIncreasing(baseDamage: int, d1: real, d2: real)
    requires baseDamage >= 0 && 0.0 <= d1 <= d2
    ensures CalculateDamage(baseDamage, Finite(d2)) <= CalculateDamage(baseDamage, Finite(d1))
  {
    if d2 <= MaxDistance {
      InRangeDamageNonIncreasing(baseDamage, d1, d2);
    } else if d1 <= MaxDistance {
      DamageBounds(baseDamage, d1);
    }
  }

  lemma InRangeDamageNonIncreasing(baseDamage: int, d1: real, d2: real)
    requires baseDamage >= 0 && 0.0 <= d1 <= d2 <= MaxDistance
    ensures CalculateDamage(baseDamage, Finite(d2)) <= CalculateDamage(baseDamage, Finite(d1))
  {
    var b := baseDamage as real;
    var m1 := 1.0 - (d1 / MaxDistance) * DamageFalloff;
    var m2 := 1.0 - (d2 / MaxDistance) * DamageFalloff;
    assert m2 <= m1;
    ScaleMonotone(b, m2, m1);
    FloorMonotone(b * m2, b * m1);
  }

  /** At exactly the maximum range a 5-point hit still does 2 points; just beyond it, 0. */
  lemma DamageAtRangeEdge()
    ensures CalculateDamage(BaseDamage, Finite(0.0)) == 5
    ensures CalculateDamage(BaseDamage, Finite(MaxDistance)) == 2
    ensures CalculateDamage(BaseDamage, Finite(100.5)) == 0
    ensures CalculateDamage(BaseDamage, Infinity) == 0
  {
    assert (5.0 * 0.5).Floor == 2;
  }

  // ---------------------------------------------------------------- kill log

  datatype KillEntry = KillEntry(killer: string, victim: string, shownAt: real)

  /** The kill log's entries and the time of the latest accepted entry. */
  datatype KillLog = KillLog(entries: seq<KillEntry>, lastKillTime: real)

  /** `addKillLog(killer, victim)` at time `now`: dropped within 100 ms of the last entry. */
  function AddKill(log: KillLog, killer: string, victim: string, now: real): KillLog
  {
    if now - log.lastKillTime < KillSpamWindow then log
    else KillLog(log.entries + [KillEntry(killer, victim, now)], now)
  }

  /** An entry is on screen until its timeout and fade-out have both elapsed. */
  predicate OnScreen(e: KillEntry, now: real)
  {
    now < e.shownAt + KillLogTimeout + KillLogFade
  }

  /** `a` is `b` with some elements left out and the others kept in their order. */
  predicate IsSubsequence<T(==)>(a: seq<T>, b: seq<T>)
    decreases |b|
  {
    a == [] || (b != [] && ((a[0] == b[0] && IsSubsequence(a[1..], b[1..])) || IsSubsequence(a, b[1..])))
  }

  /** The timers' removals up to time `now`: the entries still on screen, in order. */
  function Expire(entries: seq<KillEntry>, now: real): (r: seq<KillEntry>)
    ensures |r| <= |entries|
    ensures forall e :: e in r <==> e in entries && OnScreen(e, now)
    ensures IsSubsequence(r, entries)
    decreases |entries|
  {
    if entries == [] then []
    else
      var rest := Expire(entries[1..], now);
      if OnScreen(entries[0], now) then
        assert ([entries[0]] + rest)[1..] == rest;
        [entries[0]] + rest
      else rest
  }

  /** A kill within 100 ms of the previous accepted one leaves the log as it is; any
      other is appended and becomes the new reference time. */
  lemma KillLogDeduplicates(log: KillLog, killer: string, victim: string, now: real)
    ensures now - log.lastKillTime < KillSpamWindow ==> AddKill(log, killer, victim, now) == log
    ensures now - log.lastKillTime >= KillSpamWindow ==>
      AddKill(log, killer, victim, now).lastKillTime == now &&
      AddKill(log, killer, victim, now).entries == log.entries + [KillEntry(killer, victim, now)]
  {
  }

  /** An accepted entry is on screen for 5500 ms and gone afterwards. */
  lemma {:induction false} KillEntryLifetime(log: KillLog, killer: string, victim: string, now: real, later: real)
    requires now - log.lastKillTime >= KillSpamWindow
    ensures var e := KillEntry(killer, victim, now);
      var entries := AddKill(log, killer, victim, now).entries;
      && (now <= later < now + KillLogTimeout + KillLogFade ==> e in Expire(entries, later))
      && (later >= now + KillLogTimeout + KillLogFade ==> e !in Expire(entries, later))
  {
    var e := KillEntry(killer, victim, now);
    assert e in AddKill(log, killer, victim, now).entries;
  }

  /** Two kills less than 100 ms apart after an accepted one: only the first is logged. */
  lemma {:induction false} RapidKillsLoggedOnce(log: KillLog, now: real, gap: real)
    requires now - log.lastKillTime >= KillSpamWindow && 0.0 <= gap < KillSpamWindow
    ensures var l1 := AddKill(log, "a", "b", now);
      var l2 := AddKill(l1, "c", "d", now + gap);
      l2 == l1 && |l2.entries| == |log.entries| + 1
  {
    var l1 := AddKill(log, "a", "b", now);
    assert l1.lastKillTime == now;
  }

  // ---------------------------------------------------------------- session view

  /** Every field of the session, the players as object references. */
  datatype SessionView = SessionView(
    isRunning: bool, players: map<string, Player>, playerId: Option<string>,
    player: Player?, weapon: Weapon?, score: int, killLog: KillLog,
    reloaded: bool, respawnTimers: seq<real>)

  /** The roster `endGame` leaves: `player.remove()` deletes `players[player.id]`, first
      for every player object whose id is not the local id, then for the local player
      object. Entries are only ever deleted; when every entry is stored under its own id,
      at most the local id's entry is left, and not even that one when it is the local
      player object's own. */
  function Ended(players: map<string, Player>, playerId: Option<string>, player: Player?): (r: map<string, Player>)
    ensures forall k :: k in r ==> k in players && r[k] == players[k]
    ensures (forall k :: k in players ==> players[k].id == k) ==>
      forall k :: k in r <==> k in players && Some(k) == playerId && !(player != null && k == player.id)
  {
    var removed := set k | k in players && Some(players[k].id) != playerId :: players[k].id;
    var rest := players - removed;
    if player != null then rest - {player.id} else rest
  }

  /** With every entry under its own id, the deletions of `endGame` leave the local id's
      entry, minus the local player object's own. */
  lemma EndedOfConsistent(players: map<string, Player>, playerId: Option<string>, player: Player?,
                          remaining: map<string, Player>)
    requires forall k :: k in players ==> players[k].id == k
    requires forall k :: k in remaining <==> k in players && Some(k) == playerId
    requires forall k :: k in remaining ==> remaining[k] == players[k]
    ensures Ended(players, playerId, player) == if player != null then remaining - {player.id} else remaining
  {
    var e := Ended(players, playerId, player);
    var r := if player != null then remaining - {player.id} else remaining;
    assert forall k :: k in e <==> k in r;
  }

  /** `endGame()`: a no-op once the game is not running. */
  function EndedView(v: SessionView): SessionView
  {
    if !v.isRunning then v
    else v.(isRunning := false, players := Ended(v.players, v.playerId, v.player), player := null)
  }

  /** Ending a game twice is ending it once; afterwards the game is stopped, there is
      no local player, and no entry of another player is left. */
  lemma EndGameIdempotent(v: SessionView)
    ensures EndedView(EndedView(v)) == EndedView(v)
    ensures !EndedView(v).isRunning
    ensures v.isRunning ==> EndedView(v).player == null
    ensures v.isRunning && (forall k :: k in v.players ==> v.players[k].id == k) ==>
      forall k :: k in EndedView(v).players ==> Some(k) == v.playerId
    ensures !v.isRunning ==> EndedView(v) == v
  {
  }

  /** When the local player's object has its own id, `endGame` empties the roster. */
  lemma EndGameClearsRoster(v: SessionView)
    requires v.isRunning && v.player != null && v.playerId == Some(v.player.id)
    requires forall k :: k in v.players ==> v.players[k].id == k
    ensures EndedView(v).players == map[]
  {
    var r := EndedView(v).players;
    assert forall k :: k in v.players ==> (Some(v.players[k].id) == v.playerId ==> k == v.player.id);
    assert r.Keys == {};
  }

  /** `respawnPlayer()`'s random point for draws `rx`, `rz` in [0, 1), at eye height. */
  function RespawnPoint(rx: real, rz: real): (p: Vec3)
    ensures 0.0 <= rx < 1.0 ==> -RespawnSpread / 2.0 <= p.x < RespawnSpread / 2.0
    ensures 0.0 <= rz < 1.0 ==> -RespawnSpread / 2.0 <= p.z < RespawnSpread / 2.0
    ensures p.y == Height
  {
    Vec3((rx - 0.5) * RespawnSpread, Height, (rz - 0.5) * RespawnSpread)
  }

  // ---------------------------------------------------------------- the session object

  /** Re-inserting a key after removing it is the same as overwriting it. */
  lemma UpdateAfterRemove<K, V>(m: map<K, V>, k: K, v: V)
    ensures (m - {k})[k := v] == m[k := v]
  {
  }

  /** The state of every player of a roster, by id. */
  ghost function RosterOf(players: map<string, Player>): map<string, PlayerState>
    reads players.Values
  {
    map k | k in players :: players[k].State()
  }

  /** Adding a player to a roster adds its state under the same key. */
  lemma RosterOfInsert(players: map<string, Player>, k: string, p: Player)
    ensures RosterOf(players[k := p]) == RosterOf(players)[k := p.State()]
  {
    var r := RosterOf(players[k := p]);
    assert r.Keys == RosterOf(players).Keys + {k};
    assert forall j :: j in r ==> r[j] == RosterOf(players)[k := p.State()][j];
  }

  class Game {
    var isRunning: bool
    var players: map<string, Player>
    var playerId: Option<string>
    var player: Player?
    var weapon: Weapon?
    var score: int
    var lastKillTime: real
    var killLog: seq<KillEntry>
    /** Set by `location.reload()`: the session ends for good. */
    var reloaded: bool
    /** Due times of pending `sendPlayerRespawn` timers, oldest first. */
    var respawnTimers: seq<real>

    function KillLogState(): KillLog
      reads this
    {
      KillLog(killLog, lastKillTime)
    }

    function View(): SessionView
      reads this
    {
      SessionView(isRunning, players, playerId, player, weapon, score, KillLogState(), reloaded, respawnTimers)
    }

    /** The state of every registered player, by id. */
    ghost function Roster(): map<string, PlayerState>
      reads this, players.Values
    {
      RosterOf(players)
    }

    ghost predicate Valid()
      reads this, players.Values, player, weapon
    {
      && (forall k :: k in players ==> players[k].id == k && players[k].Valid())
      && (player != null ==> player.Valid())
      && (weapon != null ==> weapon.Valid())
    }

    constructor ()
      ensures Valid()
      ensures View() == SessionView(false, map[], None, null, null, 0, KillLog([], 0.0), false, [])
    {
      isRunning := false;
      players := map[];
      playerId := None;
      player := null;
      weapon := null;
      score := 0;
      lastKillTime := 0.0;
      killLog := [];
      reloaded := false;
      respawnTimers := [];
    }

    /** The effect of a successful `network.connect` in `startGame`: the game runs. */
    method Start()
      modifies this
      ensures View() == old(View()).(isRunning := true)
    {
      isRunning := true;
    }

    /** `calculateDistance(targetId)`, the length taken by the square-root function. */
    function CalculateDistance(targetId: string, sqrt: real -> real): (r: Distance)
      reads this, players.Values, player
      ensures r.Infinity? <==> targetId !in players || player == null
    {
      if targetId !in players || player == null then Infinity
      else Finite(sqrt(DistSq(player.position, players[targetId].position)))
    }

    /** A hit on or from an unknown player, or with no local player, does no damage. */
    lemma MissingPlayerDealsNoDamage(targetId: string, sqrt: real -> real, baseDamage: int)
      requires targetId !in players || player == null
      ensures CalculateDamage(baseDamage, CalculateDistance(targetId, sqrt)) == 0
    {
    }

    /** Measured by `calculateDistance` with a square root that is never negative, a hit
        does between 0 and the full base damage, and none when either player is missing. */
    lemma HitDamageInRange(targetId: string, sqrt: real -> real, baseDamage: int)
      requires baseDamage >= 0
      requires forall x :: x >= 0.0 ==> sqrt(x) >= 0.0
      ensures 0 <= CalculateDamage(baseDamage, CalculateDistance(targetId, sqrt)) <= baseDamage
      ensures targetId !in players || player == null ==> CalculateDamage(baseDamage, CalculateDistance(targetId, sqrt)) == 0
    {
      if targetId in players && player != null {
        assert DistSq(player.position, players[targetId].position) >= 0.0;
      }
    }

    /** `addKillLog(killerName, victimName)` at time `now`. */
    method AddKillLog(killerName: string, victimName: string, now: real)
      modifies this
      ensures View() == old(View()).(killLog := AddKill(old(KillLogState()), killerName, victimName, now))
    {
      if now - lastKillTime < KillSpamWindow {
        return;
      }
      lastKillTime := now;
      killLog := killLog + [KillEntry(killerName, victimName, now)];
    }

    /** The kill-log timers that have fired by `now`. */
    method ExpireKillLog(now: real)
      modifies this
      ensures View() == old(View()).(killLog := KillLog(Expire(old(killLog), now), old(lastKillTime)))
    {
      killLog := Expire(killLog, now);
    }

    /** `createPlayer(id, data)`: a fresh player replaces any previous one under `id`;
        the local id also gets the local player and a fresh weapon. */
    method CreatePlayer(id: string, username: string, position: Option<Vec3>, respawnPosition: Vec3) returns (p: Player)
      requires Valid()
      modifies this
      ensures Valid()
      ensures fresh(p) && p.id == id && p.isLocal == (old(playerId) == Some(id))
      ensures p.State() == InitialState(username, position, respawnPosition)
      ensures Roster() == old(Roster())[id := p.State()]
      ensures old(playerId) == Some(id) ==>
        weapon != null && fresh(weapon) && weapon.State() == Fresh() &&
        View() == old(View()).(players := old(players)[id := p], player := p, weapon := weapon)
      ensures old(playerId) != Some(id) ==> View() == old(View()).(players := old(players)[id := p])
    {
      if id in players {
        RemovePlayer(id);
      }
      p := new Player(id, username, position, playerId, respawnPosition);
      ghost var initial := p.State();
      Register(p);
      assert p.State() == initial;
      assert players == old(players)[id := p] by { UpdateAfterRemove(old(players), id, p); }
      assert Roster() == old(Roster())[id := p.State()] by { UpdateAfterRemove(old(Roster()), id, p.State()); }
      if Some(id) == playerId {
        InstallLocal(p);
        assert p.State() == initial;
      }
    }

    /** The local branch of `createPlayer`: the player becomes `this.player` and gets a new weapon. */
    method InstallLocal(p: Player)
      requires Valid() && p.Valid()
      modifies this
      ensures Valid()
      ensures weapon != null && fresh(weapon) && weapon.State() == Fresh()
      ensures View() == old(View()).(player := p, weapon := weapon)
      ensures Roster() == old(Roster())
    {
      player := p;
      weapon := new Weapon();
    }

    /** The `this.players[id] = player` step of `createPlayer`, for an id not yet taken. */
    method Register(p: Player)
      requires Valid() && p.Valid() && p.id !in players
      modifies this
      ensures Valid()
      ensures View() == old(View()).(players := old(players)[p.id := p])
      ensures Roster() == old(Roster())[p.id := p.State()]
    {
      RosterOfInsert(players, p.id, p);
      players := players[p.id := p];
    }

    /** `removePlayer(id)`: only that entry goes; the local player reference stays. */
    method RemovePlayer(id: string)
      requires Valid()
      modifies this
      ensures Valid()
      ensures View() == old(View()).(players := old(players) - {id})
      ensures Roster() == old(Roster()) - {id}
    {
      if id in players {
        players := players - {id};
      }
    }

    /** `updatePlayer(id, data)`: unknown ids and data with a health of 0 or less are ignored. */
    method UpdatePlayer(id: string, data: NetData, now: real)
      requires Valid()
      modifies players.Values
      ensures Valid()
      ensures id !in players || (data.health.Some? && data.health.value <= 0) ==> unchanged(players.Values)
      ensures id in players && !(data.health.Some? && data.health.value <= 0) ==>
        players[id].State() == NetworkStep(old(players[id].State()), data, now) &&
        forall k :: k in players && k != id ==> unchanged(players[k])
    {
      if id in players {
        if data.health.Some? && data.health.value <= 0 {
          return;
        }
        players[id].UpdateFromNetwork(data, now);
      }
    }

    /** `endGame()`. */
    method EndGame()
      requires Valid()
      modifies this
      ensures Valid()
      ensures View() == EndedView(old(View()))
    {
      if !isRunning {
        return;
      }
      isRunning := false;
      assert forall k :: k in players ==> players[k].id == k;
      var remaining := players;
      var keys := players.Keys;
      while keys != {}
        invariant keys <= remaining.Keys
        invariant forall k :: k in remaining <==> k in players && (k in keys || Some(k) == playerId)
        invariant forall k :: k in remaining ==> remaining[k] == players[k]
        decreases keys
      {
        var k :| k in keys;
        if Some(players[k].id) != playerId {
          remaining := remaining - {players[k].id};
        }
        keys := keys - {k};
      }
      EndedOfConsistent(players, playerId, player, remaining);
      players := remaining;
      if player != null {
        players := players - {player.id};
        player := null;
      }
    }

    /** `playerShot(shooterId, targetId)`, never called by the program: a hit on the local
        player costs it the distance damage (and may end the game); a hit by the local
        player on a known target scores twice the damage. With no local player the
        call throws before changing anything. */
    method PlayerShot(shooterId: string, targetId: string, sqrt: real -> real)
      requires Valid()
      modifies this, player
      ensures Some(targetId) == old(playerId) && old(player) != null ==>
        old(player).State() == old(player.State()).(health := DamagedHealth(old(player.health), CalculateDamage(BaseDamage, old(CalculateDistance(shooterId, sqrt))))) &&
        score == old(score) &&
        (old(player).health > 0 ==> View() == old(View())) &&
        (old(player).health <= 0 ==> View() == EndedView(old(View())))
      ensures Some(targetId) == old(playerId) && old(player) == null ==> View() == old(View())
      ensures Some(targetId) != old(playerId) ==> old(player) == null || unchanged(old(player))
      ensures Some(targetId) != old(playerId) && Some(shooterId) == old(playerId) ==>
        View() == old(View()).(score := old(score) +
          (if targetId in old(players) then 2 * CalculateDamage(BaseDamage, old(CalculateDistance(targetId, sqrt))) else 0))
      ensures Some(targetId) != old(playerId) && Some(shooterId) == old(playerId) ==> score >= old(score)
      ensures Some(targetId) != old(playerId) && Some(shooterId) != old(playerId) ==> View() == old(View())
    {
      if Some(targetId) == playerId {
        var distance := CalculateDistance(shooterId, sqrt);
        var finalDamage := CalculateDamage(BaseDamage, distance);
        if player == null {
          return;
        }
        var died := player.TakeDamage(finalDamage);
        if died {
          EndGame();
        }
      } else if Some(shooterId) == playerId {
        if targetId in players {
          var distance := CalculateDistance(targetId, sqrt);
          var damage := CalculateDamage(BaseDamage, distance);
          score := score + 2 * damage;
        }
      }
    }

    /** `playerDied(deadId, killerId)` at time `now`: the local player's death reloads
        the page; another known player is marked dead, a kill between two known players
        is logged, and a kill by the local player scores 50. */
    method PlayerDied(deadId: string, killerId: string, now: real)
      requires Valid()
      modifies this, players.Values
      ensures Some(deadId) == old(playerId) ==>
        View() == old(View()).(reloaded := true) && unchanged(old(players).Values)
      ensures Some(deadId) != old(playerId) ==>
        View() == old(View()).(
          score := old(score) + (if Some(killerId) == old(playerId) then KillBonus else 0),
          killLog := if deadId in old(players) && killerId in old(players)
            then AddKill(old(KillLogState()), old(players[killerId].username), old(players[deadId].username), now)
            else old(KillLogState()))
      ensures Some(deadId) != old(playerId) && deadId in old(players) ==>
        old(players)[deadId].health == 0 &&
        old(players)[deadId].State() == old(players[deadId].State()).(health := 0) &&
        forall k :: k in old(players) && k != deadId ==> unchanged(old(players)[k])
      ensures Some(deadId) != old(playerId) && deadId !in old(players) ==> unchanged(old(players).Values)
    {
      var deadPlayer: Option<Player> := if deadId in players then Some(players[deadId]) else None;
      var killerPlayer: Option<Player> := if killerId in players then Some(players[killerId]) else None;
      if Some(deadId) == playerId {
        reloaded := true;
        return;
      }
      if deadPlayer.Some? {
        deadPlayer.value.health := 0;
        if killerPlayer.Some? {
          AddKillLog(killerPlayer.value.username, deadPlayer.value.username, now);
        }
      }
      if Some(killerId) == playerId {
        score := score + KillBonus;
      }
    }

    /** `handlePlayerDeath(killerId)` at time `now`, never called by the program: a known
        killer scores 50 and the kill is logged; a respawn request is scheduled 3 s later.
        With a known killer but no local player the call throws after the bonus. */
    method HandlePlayerDeath(killerId: string, now: real)
      requires Valid()
      modifies this, players.Values
      ensures killerId in old(players) ==>
        old(players)[killerId].State() == old(players[killerId].State()).(score := old(players[killerId].score) + KillBonus)
      ensures killerId in old(players) ==>
        forall k :: k in old(players) && k != killerId ==> unchanged(old(players)[k])
      ensures killerId in old(players) && old(player) == null ==> View() == old(View())
      ensures killerId in old(players) && old(player) != null ==>
        View() == old(View()).(
          killLog := AddKill(old(KillLogState()), old(players[killerId].username), old(player.username), now),
          respawnTimers := old(respawnTimers) + [now + RespawnDelay])
      ensures killerId !in old(players) ==>
        View() == old(View()).(respawnTimers := old(respawnTimers) + [now + RespawnDelay]) &&
        unchanged(old(players).Values)
    {
      if killerId in players {
        var killer := players[killerId];
        killer.score := killer.score + KillBonus;
        if player == null {
          return;
        }
        AddKillLog(killer.username, player.username, now);
      }
      respawnTimers := respawnTimers + [now + RespawnDelay];
    }

    /** The session part of `restartGame()`: stopped, score 0, empty roster, no id, empty
        kill log. The local player and weapon references are not reset. */
    method Restart()
      modifies this
      ensures View() == old(View()).(isRunning := false, score := 0, players := map[], playerId := None,
        killLog := KillLog([], old(lastKillTime)))
    {
      isRunning := false;
      score := 0;
      players := map[];
      playerId := None;
      killLog := [];
    }

    /** There is another player than the local id closer than 2 to `pos`. */
    ghost predicate NearOtherPlayer(pos: Vec3)
      reads this, players.Values
    {
      exists k :: k in players && Some(players[k].id) != playerId &&
        DistSq(pos, players[k].position) < CollisionDistance * CollisionDistance
    }

    /** `checkCollision()`: true iff there is a local player and either another player is
        within distance 2 or a non-ground box reaches the sphere of radius 0.4 around the
        position lowered by 0.3. */
    method CheckCollision(boxes: seq<Box>) returns (hit: bool)
      ensures hit <==> (player != null &&
        (NearOtherPlayer(player.position) ||
         exists j :: 0 <= j < |boxes| && Blocks(boxes[j], CapsuleCenter(player.position))))
    {
      if player == null {
        return false;
      }
      var playerPos := player.position;
      var keys := players.Keys;
      while keys != {}
        invariant keys <= players.Keys
        invariant forall k :: k in players && k !in keys ==>
          !(Some(players[k].id) != playerId && DistSq(playerPos, players[k].position) < CollisionDistance * CollisionDistance)
        decreases keys
      {
        var k :| k in keys;
        var otherPlayer := players[k];
        if Some(otherPlayer.id) != playerId && DistSq(playerPos, otherPlayer.position) < CollisionDistance * CollisionDistance {
          return true;
        }
        keys := keys - {k};
      }
      var center := CapsuleCenter(playerPos);
      for j := 0 to |boxes|
        invariant forall i :: 0 <= i < j ==> !Blocks(boxes[i], center)
      {
        var box := boxes[j];
        if !box.isGround && DistSq(center, ClampPoint(box, center)) < Radius * Radius {
          return true;
        }
      }
      return false;
    }

    /** `respawnPlayer()`'s move of the local player to a random point, for draws `rx`, `rz`. */
    method RespawnPlayer(rx: real, rz: real)
      modifies player
      ensures player != null ==> player.State() == old(player.State()).(body := old(player.Kinematics()).(position := RespawnPoint(rx, rz)))
    {
      if player == null {
        return;
      }
      player.position := RespawnPoint(rx, rz);
    }
  }
}
