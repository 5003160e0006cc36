# web-FpsGame game rules in Dafny

This project models the game rules of a browser first-person shooter. It covers:

- the client's weapon, player, game-session, network-session and input logic
  (`static/js/*.js`);
- the Flask/Socket.IO server's bookkeeping of players, position histories and events
  (`app.py`);
- the world description with its random obstacle generator (`world_data.py`).

Each source object whose fields change in place is a Dafny `class`:
`Weapons.Weapon`, `Players.Player`, `Games.Game`, `Network.Session`, `Input.Controls`,
`Server.GameServer`. Each class method is proved against a pure step function of the old
state (`ensures State() == ShootStep(old(State()), ...)`). The properties the program
promises are lemmas about those step functions. The per-frame loop of `game.js` is in
`GameLoop`.

Some things are parameters instead of being computed:

- the clock (`now`, in milliseconds on the client, seconds on the server);
- random draws;
- what the raycast hits;
- the square root behind `length`/`distanceTo`/`normalize`;
- the yaw rotation of the camera.

Distances compared against a radius are compared as squares, which is exact.
Sent and emitted messages are appended to an `outbox`. Timer callbacks (reload
completion, kill-log expiry, the respawn request) are explicit events.

| file | module | source |
|---|---|---|
| common.dfy | Common | `Option` |
| geometry.dfy | Geometry | vectors, boxes, clamp, lerp, as Three.js provides them |
| weapon.dfy | Weapons | static/js/weapon.js |
| player.dfy | Players | static/js/player.js |
| game.dfy | Games | static/js/game.js |
| network.dfy | Network | static/js/network.js |
| controls.dfy | Input | static/js/controls.js |
| gameloop.dfy | GameLoop | `update` and `restartGame` of static/js/game.js |
| server.dfy | Server | app.py |
| world.dfy | World | world_data.py |

Where the program's documented intent and its code differ, the model follows the code:

- `calculateDamage(5, 100)` is 2, not 0.
- The first shot of a fresh weapon needs `now >= 100`.
- Forward beats backward and left beats right.
- A `player:respawned` handler exists but is never installed, so respawn confirmations
  are not handled.
- `playerShot` and `handlePlayerDeath` of static/js/game.js have no caller: hits arrive
  as `player:hit` and a local death reloads the page (static/js/game.js:421-445). Both are
  modelled as written, as `Games.Game.PlayerShot` and `Games.Game.HandlePlayerDeath`.
  The respawn timer of `handlePlayerDeath` is the client's only sender of `player:respawn`,
  so this client never sends that message.
- The server's own history keeps the client's `timestamp` when there is one (app.py:101),
  but the `player:update` it forwards is restamped in seconds with `time.time()`
  (app.py:115). The receiving client compares snapshot times against `performance.now()`
  in milliseconds (static/js/player.js:263). The model takes the timestamps as given, so
  it keeps both branches of the interpolation.

The two cases where the code is evidently wrong are listed under "## Findings". For
those, the rest of the model uses the corrected definition.

## Model

| member | source | states |
|---|---|---|
| Weapons.RejectedShotIsNoOp | static/js/weapon.js:80-86 | a shot while it cannot shoot, reloading, out of ammo or within 100 ms of the last shot changes nothing and reports nothing |
| Weapons.AcceptedShotUsesOneRound | static/js/weapon.js:88-89 | an accepted shot uses exactly one round and records `now` as the last shot time |
| Weapons.ReportOnlyForRemoteHit | static/js/weapon.js:123-141 | `sendShot` happens iff the shot is accepted and the nearest hit is a non-local player with a non-empty id, and it names that player |
| Weapons.LastRoundStartsReload | static/js/weapon.js:151-160 | the shot that fires the last round leaves 0 ammo, starts reloading, disables shooting and arms the 2000 ms timer |
| Weapons.ReloadGuard | static/js/weapon.js:156-160 | `reload` is a no-op while reloading or full; otherwise it starts reloading and keeps ammo and last shot time |
| Weapons.FinishReloadReopensGate | static/js/weapon.js:169-172 | completion refills to 30 and reopens the gate once the cooldown has passed |
| Weapons.StepsKeepConsistent | static/js/weapon.js:77-178 | shoot, reload and completion keep 0 <= ammo <= 30, `canShoot == !isReloading`, and an empty magazine always reloading |
| Weapons.ReloadingRejectsShots | static/js/weapon.js:81-86 | while a reload is pending every shot is rejected |
| Weapons.FirstShotNeedsCooldownFromZero | static/js/weapon.js:19 | a fresh weapon can fire exactly when `now >= 100`, since the last shot time starts at 0 |
| Weapons.SpacedShotsEmptyMagazine | static/js/weapon.js:77-154 | as many cooldown-spaced shots as rounds left all get through and leave the weapon empty and reloading |
| Weapons.FullMagazineThenReload | static/js/weapon.js:8-19 | 30 spaced shots on a fresh weapon leave it empty and reloading |
| Weapons.Weapon.constructor | static/js/weapon.js:2-19 | 30 rounds, ready to shoot, not reloading, last shot at 0 |
| Weapons.Weapon.Shoot | static/js/weapon.js:77-154 | the new fields and the reported target are exactly `ShootStep` of the old fields; the invariant is kept |
| Weapons.Weapon.Reload | static/js/weapon.js:156-178 | the new fields are `StartReload` of the old ones |
| Weapons.Weapon.CompleteReload | static/js/weapon.js:169-172 | the timer callback refills the magazine and re-enables shooting |
| Players.GravityLandsOnGround | static/js/player.js:156-164 | below eye height after gravity the player lands at exactly 1.6 with zero vertical speed and on the ground; otherwise the fall goes on |
| Players.PhysicsStaysInWorld | static/js/player.js:174-180 | after `updatePhysics`, &#124;x&#124; <= 50 and &#124;z&#124; <= 50 |
| Players.ClampToWorldExact | static/js/player.js:175-180 | the bounds clamp is the identity inside ±50 and snaps to the nearer wall outside |
| Players.FirstHit | static/js/player.js:204-241 | the index found is the first non-ground box the sphere reaches; none before it does, and if none is found no box does |
| Players.BlockedMoveIsReverted | static/js/player.js:229-239 | when some non-ground box is reached the move is undone (no tunnelling), and the velocity response is that of the first such box |
| Players.UnblockedMoveIsKept | static/js/player.js:204-241 | with no box reached, position and velocity are untouched |
| Players.SlideRemovesInwardComponent | static/js/player.js:235-238 | for a unit normal, an inward velocity becomes perpendicular to it; an outward one is kept |
| Players.PushBoundedKeepsNewest | static/js/player.js:269-276 | the history holds at most 20 entries, ends with the new snapshot, and is the newest suffix of the pushed sequence (oldest evicted first) |
| Players.Bracket | static/js/player.js:282-290 | the pair found is the first with t_i <= target <= t_{i+1}; if none is found no pair brackets |
| Players.AlphaInUnitInterval | static/js/player.js:285-287 | a bracketing pair gives an interpolation fraction in [0, 1] |
| Players.InterpolationTarget | static/js/player.js:278-299 | the position eases 0.3 of the way to the lerp of the first bracketing pair, whose fraction lies in [0, 1]; with no pair, 0.3 of the way to the newest snapshot |
| Players.NetworkPositionUpdate | static/js/player.js:266-300 | a message with a position pushes one snapshot stamped `timestamp` or `now` and eases over the new history |
| Players.HalfwayInterpolation | static/js/player.js:278-290 | snapshots (0, t=0) and (10, t=200) played back at now=200 interpolate to x = 5 |
| Players.DiscreteFieldsApplied | static/js/player.js:330-336 | health and score are taken over when present and kept when absent, and no position means no history or position change |
| Players.JumpOnlyFromGround | static/js/player.js:341-346 | jumping from the ground gives vertical speed 5 and leaves the ground; in the air it changes nothing |
| Players.DamagedHealth | static/js/player.js:348-350 | health after a hit is `max(0, health - amount)`, 0 exactly when the hit reaches it, never higher for a non-negative hit |
| Players.Player.constructor | static/js/player.js:2-50 | full health, score 0, local iff the id is the game's id, at the given position or (0, 1.6, 0), at rest, empty history |
| Players.Player.UpdatePhysics | static/js/player.js:154-181 | the new body is `PhysicsStep` of the old one: gravity, move, collision, bounds |
| Players.Player.CheckCollisions | static/js/player.js:198-242 | the loop with `break` gives `Resolve`: revert and slide on the first blocking box |
| Players.Player.UpdateFromNetwork | static/js/player.js:262-339 | the new state is `NetworkStep` of the old state and the message |
| Players.Player.ApplyPosition | static/js/player.js:269-299 | the snapshot is pushed onto the bounded history and the position eased over it, as `Observe` says |
| Players.Player.ApplyFields | static/js/player.js:303-338 | rotation, velocity, health, score and the update time follow `FieldsStep` |
| Players.Player.PushSnapshot | static/js/player.js:269-276 | push plus the eviction loop leave `PushBounded` of the old history |
| Players.Player.FindTargetPosition | static/js/player.js:278-290 | the scan returns the interpolated point of the first bracketing pair, if any |
| Players.Player.Jump | static/js/player.js:341-346 | the body becomes `JumpStep` of the old body |
| Players.Player.TakeDamage | static/js/player.js:348-372 | health becomes `DamagedHealth(old health, amount)`, and `endGame` is due exactly when health is 0 or less |
| Players.Player.ResetAfterDeath | static/js/player.js:392-402 | full health, at the respawn position, zero velocity and vertical speed |
| Games.CalculateDamage | static/js/game.js:391-399 | for a non-negative base damage the result is never negative at any distance and never above the base damage at a non-negative one; beyond 100 or at Infinity it is 0 |
| Games.DamageBounds | static/js/game.js:395-398 | inside the range the damage lies in [floor(b/2), b] |
| Games.DamageNonIncreasing | static/js/game.js:391-399 | damage never increases with distance |
| Games.InRangeDamageNonIncreasing | static/js/game.js:395-398 | within the 100-unit range a farther hit never does more damage |
| Games.DamageAtRangeEdge | static/js/game.js:391-399 | a 5-point hit does 5 at 0, still 2 at exactly 100, and 0 at 100.5 or Infinity |
| Games.Game.HitDamageInRange | static/js/game.js:391-406 | a hit measured by `calculateDistance` with a non-negative square root does between 0 and the full base damage, and none when the target or the local player is missing |
| Games.Game.MissingPlayerDealsNoDamage | static/js/game.js:401-404 | a missing target or local player means 0 damage |
| Games.KillLogDeduplicates | static/js/game.js:254-263 | a kill within 100 ms of the last accepted one leaves the log and `lastKillTime` as they are; any other is appended and sets `lastKillTime = now` |
| Games.Expire | static/js/game.js:265-271 | the entries left by the timers are exactly those still on screen, in their original order |
| Games.KillEntryLifetime | static/js/game.js:254-271 | an accepted entry is shown for 5000 + 500 ms and is gone afterwards |
| Games.RapidKillsLoggedOnce | static/js/game.js:254-257 | of two kills less than 100 ms apart only the first is logged |
| Games.Ended | static/js/game.js:175-186 | the deletions of `player.remove()` only drop entries; with every entry under its own id, what is left is at most the local id's entry, and not that one when it is the local player object's |
| Games.EndGameIdempotent | static/js/game.js:164-189 | a second `endGame` is a no-op; afterwards the game is stopped and there is no local player; with every entry under its own id, only the local id's entry can be left |
| Games.EndGameClearsRoster | static/js/game.js:175-186 | with a consistent roster and local player, `endGame` empties the roster |
| Games.EndedOfConsistent | static/js/game.js:175-186 | with every entry under its own id, the deletions leave exactly the local id's entry minus the local player object's own |
| Games.RespawnPoint | static/js/game.js:546-551 | the collision respawn point lies in [-20, 20) on x and z at eye height |
| Games.Game.constructor | static/js/game.js:3-56 | a stopped session with no players, id, local player or weapon, score 0 and empty kill log |
| Games.Game.Start | static/js/game.js:141-147 | a successful connect sets the game running |
| Games.Game.AddKillLog | static/js/game.js:247-272 | the kill log becomes `AddKill` of the old one |
| Games.Game.ExpireKillLog | static/js/game.js:265-271 | the fired removal timers leave `Expire` of the entries |
| Games.Game.CreatePlayer | static/js/game.js:274-299 | a fresh player replaces any previous one under the id; the local id also installs it as the local player with a fresh weapon; nothing else changes |
| Games.Game.Register | static/js/game.js:281-282 | the new player is stored under its id, and the roster gains exactly its state |
| Games.Game.InstallLocal | static/js/game.js:285-287 | the player becomes the local player with a fresh weapon; the roster is unchanged |
| Games.Game.RemovePlayer | static/js/game.js:301-308 | exactly that key is removed |
| Games.Game.UpdatePlayer | static/js/game.js:310-315 | unknown ids and data with health <= 0 change nothing; otherwise only that player takes `NetworkStep` |
| Games.Game.EndGame | static/js/game.js:164-192 | the session becomes `EndedView` of the old one |
| Games.Game.PlayerShot | static/js/game.js:359-389 | a hit on the local player changes that player's health to the distance-damaged value and nothing else of it, and a lethal one ends the game as `endGame` does; a local hit on a known target adds twice the damage to the score, which never decreases; nothing else changes |
| Games.Game.PlayerDied | static/js/game.js:421-445 | a local death reloads the page; otherwise a known dead player gets health 0, a kill between known players is logged, and the score rises by 50 iff the killer is local |
| Games.Game.HandlePlayerDeath | static/js/game.js:408-419 | a known killer scores 50 and the kill is logged; a respawn request is scheduled 3000 ms later; only the killer's object changes |
| Games.Game.Restart | static/js/game.js:194-205 | stopped, score 0, empty roster, no id, empty kill log |
| Games.Game.CheckCollision | static/js/game.js:507-541 | true iff there is a local player and another player is closer than 2, or a non-ground box reaches the 0.4 sphere 0.3 below the position |
| Games.Game.RespawnPlayer | static/js/game.js:543-552 | the local player moves to `RespawnPoint(rx, rz)` and keeps everything else |
| Network.ThrottledUpdateIsNoOp | static/js/network.js:229-233 | disconnected, or within 50 ms of the last gated call, nothing is sent or changed |
| Network.GatedUpdateSendsChanges | static/js/network.js:233-270 | past the gate the clock advances to `now`; a message goes out iff something changed, carrying the current values and `now`, and the remembered values change only then |
| Network.FirstUpdateIsSent | static/js/network.js:239-246 | the first update past the gate is always sent |
| Network.UnchangedStateIsSuppressed | static/js/network.js:239-246 | repeating the values last sent sends nothing |
| Network.GatedCallsAreSpaced | static/js/network.js:233-234 | two consecutive gated calls are more than 50 ms apart |
| Network.RemoteIds | static/js/network.js:122-123 | the ids created from a roster are the listed ids minus the local one, one fewer when the local id is listed, all of them with no local id |
| Network.PlayerListEffect | static/js/network.js:111-131 | `player:list` keeps the local id's entry, creates every other listed player at full health with score 0 and an empty history, and the same roster a second time leaves the same states |
| Network.SyncAllEffect | static/js/network.js:173-186 | `players:state` keeps entries it does not list, copies health and score into known remote players, and creates unknown ones at full health with score 0 |
| Network.ApplyState | static/js/network.js:176-180 | a known player takes the sent health and score, then `updateFromNetwork` |
| Network.Session.constructor | static/js/network.js:2-16 | disconnected, no attempts, no socket, nothing remembered or sent |
| Network.Session.OpenSocket | static/js/network.js:31-36 | `connect` creates the socket and changes nothing else |
| Network.Session.OnConnect | static/js/network.js:46-54 | connected, attempt counter 0, `player:join` sent |
| Network.Session.OnReconnectAttempt | static/js/network.js:57-60 | the attempt number is stored |
| Network.Session.OnReconnect | static/js/network.js:63-69 | connected again and `player:join` re-sent |
| Network.Session.OnReconnectFailed | static/js/network.js:72-76 | disconnected |
| Network.Session.OnDisconnect | static/js/network.js:204-212 | disconnected, and a running game ends as `endGame` ends it |
| Network.Session.Disconnect | static/js/network.js:220-226 | with a socket the session is disconnected; otherwise nothing changes |
| Network.Session.SendPlayerUpdate | static/js/network.js:228-273 | the remembered values and the outbox are exactly `UpdateStep` of the old ones |
| Network.Session.SendShot | static/js/network.js:275-288 | `player:shoot` is sent iff connected |
| Network.Session.SendPlayerDeath | static/js/network.js:290-303 | `player:death` is sent iff connected |
| Network.Session.SendPlayerRespawn | static/js/network.js:305-312 | `player:respawn` is sent iff connected |
| Network.Session.FireRespawnTimer | static/js/game.js:416-418 | a due respawn timer is consumed and sends `player:respawn` while connected; otherwise nothing happens |
| Network.Session.OnGameStart | static/js/network.js:79-97 | the local id is set and the local player is created at the sent position or (0, 5, 0) with a fresh 30-round weapon; nothing else of the session changes |
| Network.Session.OnPlayerJoined | static/js/network.js:100-108 | the joined player is created at the sent position or (0, 5, 0); other entries and the rest of the session are kept, except that the local id also installs the player and a fresh weapon |
| Network.Session.OnPlayerList | static/js/network.js:111-131 | a roster without the local id reloads the page; otherwise the roster becomes `CreateAll` over the remote ids |
| Network.Session.OnPlayerLeft | static/js/network.js:134-137 | exactly that id is removed |
| Network.Session.OnPlayerUpdate | static/js/network.js:140-144 | updates about the local id are ignored; others go through `updatePlayer` |
| Network.Session.OnPlayerHit | static/js/network.js:147-164 | only a hit on the local id damages the local player, and a lethal one ends the game |
| Network.Session.OnPlayerDied | static/js/network.js:167-170 | the effect of `playerDied`: a local death reloads the page; otherwise a known dead player gets health 0 and every other player object is unchanged, the kill is logged between known players, and a local killer scores 50 |
| Network.Session.SyncEntry | static/js/network.js:175-185 | one non-local entry updates the known player or creates it, as `Synced` says |
| Network.Session.SyncKnown | static/js/network.js:176-180 | a known player's state becomes the copied health and score followed by `NetworkStep` |
| Network.Session.OnPlayersState | static/js/network.js:173-190 | the roster becomes `SyncAll` over the non-local ids of the message |
| Input.HoldKeyFlags | static/js/controls.js:94-125 | keydown sets exactly the key's flag and keyup clears exactly it; other flags and settings are untouched |
| Input.PressThenRelease | static/js/controls.js:94-125 | pressing then releasing a key that was not held restores the state |
| Input.ZoomToggleTwice | static/js/controls.js:113 | KeyZ toggles zooming, so two presses are no change |
| Input.SensitivityKeysAdjust | static/js/controls.js:111-112 | KeyV lowers the multiplier by 0.1 down to 0.5 and KeyB raises it up to 2.0, touching nothing else |
| Input.PitchClampedAfterMouseMove | static/js/controls.js:130-148 | after any mouse move both pitches are within ±(π/2)·0.99 and keys, sensitivity and fields of view are untouched |
| Input.SidewaysMoveKeepsPitch | static/js/controls.js:135-145 | a pitch within the limit stays put under a purely sideways move |
| Input.ShortFrameKeepsPitch | static/js/controls.js:240-243 | a frame of at most 0.15 s keeps the smoothed pitch within the limit |
| Input.LongFrameOvershoots | static/js/controls.js:240-243 | a 0.3 s frame carries the smoothed pitch past its target and past the limit |
| Input.IntentPrecedence | static/js/controls.js:251-257 | forward beats backward and left beats right; the player moves iff a movement key is held; the squared intent length is 1 on an axis and 2 diagonally |
| Input.IdleStops | static/js/controls.js:270-273 | with no movement key the horizontal velocity is 0; the vertical one is never touched |
| Input.MovingSpeed | static/js/controls.js:257-269 | with a true square root and a length-keeping yaw rotation, a moving player's horizontal speed is 8 when sprinting and 5 otherwise |
| Input.UnitIntent | static/js/controls.js:256-257 | the normalised intent has unit length |
| Input.HandlersKeepRange | static/js/controls.js:84-182 | key presses, wheel turns, mouse moves and smoothing keep the multiplier in [0.5, 2], the default FOV in [60, 90] and the zoom FOV in [20, 40] |
| Input.InitialInRange | static/js/controls.js:24-49 | the initial settings are in range |
| Input.Steer | static/js/controls.js:249-274 | the player's velocity becomes `MoveVelocity` of the keys and yaw; nothing else changes |
| Input.Controls.constructor | static/js/controls.js:2-70 | no keys, multiplier 1, FOVs 75 and 30, look angles from the camera, smoothing on |
| Input.Controls.OnKeyDown | static/js/controls.js:84-115 | ignored unless the game runs; flags and settings follow `KeyDownStep`; Space jumps the local player and KeyR reloads the weapon |
| Input.Controls.PressKey | static/js/controls.js:86-114 | the control fields become `KeyDownStep` of the old ones |
| Input.Controls.OnKeyUp | static/js/controls.js:117-128 | ignored unless the game runs; otherwise `KeyUpStep` |
| Input.Controls.OnMouseMove | static/js/controls.js:130-148 | ignored unless the game runs with the pointer locked; otherwise `MouseMoveStep` |
| Input.Controls.OnMouseDown | static/js/controls.js:150-169 | only with a running game and locked pointer: the left button fires the weapon and sends a reported hit, the right button zooms; the socket and the reconnect count stay |
| Input.Controls.OnMouseUp | static/js/controls.js:171-176 | releasing the right button ends zooming |
| Input.Controls.OnMouseWheel | static/js/controls.js:178-182 | ignored unless the game runs; otherwise both FOVs move against the wheel and are clamped |
| Input.Controls.Update | static/js/controls.js:235-279 | nothing without a living local player; otherwise the look is smoothed and the held keys set the horizontal velocity |
| Input.Controls.SmoothRotation | static/js/controls.js:240-243 | yaw and pitch move `delta / 0.15` of the way to their targets |
| GameLoop.FrameStaysInWorld | static/js/game.js:465-482 | a frame leaves a local player inside the ±50 world, and a collision respawn lands inside it too |
| GameLoop.IdleFrameHasNoHorizontalSpeed | static/js/game.js:465-478 | with idle keys a frame zeroes the horizontal velocity, and a remote player does not move |
| GameLoop.AtMostOneUpdatePerFrame | static/js/game.js:480-496 | a frame sends at most one state update, none while disconnected; without a collision it is the update of `update()` itself |
| GameLoop.Frame | static/js/game.js:459-505 | nothing while stopped or dead; otherwise controls, physics, the overlap respawn and the updates of `respawnPlayer` and `update()`; a box blocking the moved player forces the respawn, and without one no other player is near; the socket and the reconnect count stay |
| GameLoop.SendFrameUpdates | static/js/game.js:555-560 | the respawn's update after a collision, then the frame's own, each only while connected; the socket and the reconnect count stay |
| GameLoop.MoveLocalPlayer | static/js/game.js:476-482 | physics for the local player, then a respawn whenever a box blocks; without a respawn no other player is near |
| GameLoop.RestartGame | static/js/game.js:194-214 | the session resets and the network disconnects; the missing `controls.reset` stops the rest; the socket and the reconnect count stay |
| Server.Push | app.py:61-65 | the deque grows by one up to 10 entries, ends with the new entry, and drops the oldest when full |
| Server.JoinRegisters | app.py:38-86 | a join registers the caller at full health on a respawn point, with a history of exactly that spawn, and touches no other player |
| Server.UpdateIgnoresUnknown | app.py:94-95 | an update from an unregistered sid changes nothing |
| Server.UpdateRecordsPosition | app.py:97-102 | the sent position goes last in a history capped at 10, the oldest dropped |
| Server.UpdateMovesPlayer | app.py:95-111 | the sender takes the sent position and keeps its health; other players are untouched |
| Server.HitBroadcastReportsHealth | app.py:150-171 | after a non-lethal hit the `players:state` broadcast lists every player at its position, the target at 5 less health, the others at their health, all with score 0 |
| Server.ShotEffect | app.py:118-171 | a shot counts only between registered players; it takes exactly 5 health, clamps at 0, announces a death exactly at 0 and a 5-damage hit otherwise |
| Server.RepeatedShots | app.py:126-134 | after n shots the target's health is max(0, h - 5n) |
| Server.TwentiethShotKills | app.py:126-149 | from 100, nineteen shots leave 5 and the twentieth kills and emits `player:died` and `game:over` |
| Server.FirstSafeChoice | app.py:204-224 | the spawn is always a respawn point; it is safe when any of the ten attempts is, and the fallback pick otherwise |
| Server.RespawnResets | app.py:178-202 | a respawn restores 100 health and resets the history to the one new spawn; an unknown sid changes nothing |
| Server.RespawnAsWrittenKeepsDead | app.py:173-175 | as written a killed player stays at 0 health after asking to respawn |
| Server.DisconnectForgets | app.py:226-246 | the sid leaves both dictionaries and every other entry is kept; an unknown sid is a no-op |
| Server.JoinKeepsValid | app.py:38-65 | join keeps equal key sets, 1..10 history entries and health a multiple of 5 in [0, 100] |
| Server.UpdateKeepsValid | app.py:88-116 | update keeps the server invariant |
| Server.ShootKeepsValid | app.py:118-171 | shoot keeps the server invariant |
| Server.RespawnKeepsValid | app.py:173-202 | respawn keeps the server invariant |
| Server.DisconnectKeepsValid | app.py:226-246 | disconnect keeps the server invariant |
| Server.GameServer.constructor | app.py:19-36 | no players and no histories |
| Server.GameServer.Join | app.py:38-86 | the state becomes `JoinStep` and the invariant is kept |
| Server.GameServer.Update | app.py:88-116 | the state becomes `UpdateStep` and the invariant is kept |
| Server.GameServer.Shoot | app.py:118-171 | the state becomes `ShootStep` and the invariant is kept |
| Server.GameServer.FindSafeSpawnPoint | app.py:204-224 | the loop returns `FirstSafe` of the picks |
| Server.GameServer.Respawn | app.py:173-202 | the state becomes the intended `RespawnStep` and the invariant is kept |
| Server.GameServer.Disconnect | app.py:226-246 | the state becomes `DisconnectStep` and the invariant is kept |
| World.CandidateShape | world_data.py:92-100 | from draws in [0, 1), an attempt that passes the building test is well placed |
| World.KeptWellPlaced | world_data.py:91-119 | at most `count` obstacles; each sized in [1, 3) by [1, 4), resting on the ground, inside [-40, 40), coloured 0x808080, and at least its radius away from both buildings |
| World.KeptIffClear | world_data.py:103-119 | an attempt is kept exactly when no building is closer than its radius |
| World.GenerateObstacles | world_data.py:78-121 | the loops with `break` return `Kept` of the draws, with the bounds above for draws in [0, 1) |
| World.GetWorldData | world_data.py:7-75 | the literal walls, buildings, ground and lights, with the generated obstacles |
| World.WallsEncloseArena | world_data.py:13-34 | four walls 10 high at z = ±50 and x = ±50, each spanning its 100-unit side |
| World.ZonesMatchBuildings | world_data.py:37-89 | the keep-out zones are centred on the two buildings |

## Left out

- Rendering, all of it: scenes, meshes, the weapon model, muzzle flash, bullet trails and
  holes, hit markers, hit effects, animation, nameplates, head-bob, the zoom and recoil
  lerps, camera placement, `weapon.update` and `player.remove`'s scene removal. None of it
  feeds back into the game state.
- DOM, UI and audio (`updateUI`, `updatePlayersList`, the kill-log elements, sounds);
  `addKillLog`'s null-element guard is taken as satisfied.
- static/js/world.js is not part of this model. Its objects reach the model as
  axis-aligned boxes with an `isGround` flag, and the raycast result is a parameter.
- Trigonometry and square roots (`makeRotationY`, `length`, `distanceTo`, `normalize`)
  are parameters.
- IEEE floating point is not modelled: positions and times are `real`, damage uses
  `.Floor`.
- Socket.IO mechanics are left out: the connection Promise and its timeout, `connect_error`,
  `error`, the reconnect delay, and message delivery order.
- The Flask background broadcast thread (app.py:263-270) is left out, since it is
  concurrency. Its `players:state` entries reach the client model as given values.
- `Date.now()`, `performance.now()`, `time.time()` and `clock.getDelta()` are explicit
  parameters; one handler uses one `now`.
- Randomness is given as draws: the spawn choice, `find_safe_spawn_point`'s picks, the
  obstacle draws, and the collision and default respawn points.
- `setTimeout` callbacks are explicit events: reload completion, kill-log expiry and the
  respawn request.
- `location.reload()` is a terminal `reloaded` flag.
- The terrain sent in `game:start` and `world.initializeFromServerData` are left out
  (rendering).
- `print` and debug logging are left out.
- `Controls.enabled` is left out, because nothing reads it.
- The remote players' per-frame `player.update` is left out, because it only animates.
- The dead `createBoundaryWalls` of game.js and controls.js are left out, because they
  use an undefined `this.objects`.
- `setupRespawnHandler` is left out, because it is never called. `resetAfterDeath` is
  modelled on its own all the same.
- The Escape key and pointer-lock requests are left out; the lock state is a parameter.
- Network.Session.OnPlayerList: the identity of player objects created by earlier
  `player:list` messages is not tracked. The roster is stated per id, through their
  states.
- Network.Session.OnPlayersState: the iteration order of `Object.entries` is not
  modelled. Each id is updated once, so the order does not change the result.
- GameLoop.MoveLocalPlayer: the overlap condition is stated in one direction for boxes.
  A blocking box forces a respawn, and no respawn implies no nearby player. The full
  equivalence is `Games.Game.CheckCollision`'s contract.
- GameLoop.Frame: like `MoveLocalPlayer`, the overlap is stated in one direction. There is
  no statement that a respawn happens only when a box blocks or a player is near, because
  the nearby-player test is on positions before the respawn moves the player.
- Network.StateEntry: every `players:state` entry is assumed to carry a `score`. The
  background broadcast of app.py:263-266 sends the stored player records, which have none,
  so the client stores `undefined`; the model cannot represent that.
- GameLoop.Frame: the rotation sent is the camera rotation, a parameter, because camera
  orientation is rendering state.

## Findings

| source | as written | input that shows it | evidently intended | confidence | as-written member | corrected member |
|---|---|---|---|---|---|---|
| static/js/player.js:285-287 | the fraction is `(target - t_i) / (t_{i+1} - t_i)`, which is 0 / 0 (NaN) for a bracketing pair with equal timestamps; the NaN then reaches the lerped position | two snapshots stamped 900, played back at now = 1000 | an equal-time pair interpolates to a fraction in [0, 1] (0 here) | medium, not executed | Players.AlphaAsWritten, Players.EqualTimestampsGiveNaN | Players.Alpha, Players.AlphaInUnitInterval |
| app.py:173-175 | the handler's parameter is named `request`, so `request.sid` reads the message instead of Flask's request and raises before any change | any `player:respawn` message from a player killed by a shot; this client cannot send one, since its only sender is the timer of the uncalled `handlePlayerDeath` (static/js/game.js:408-418), so only another client reaches the defect | the caller is reset to full health at a safe spawn with a fresh history | high, not executed | Server.RespawnAsWrittenStep, Server.RespawnAsWrittenKeepsDead | Server.RespawnStep, Server.RespawnResets |
