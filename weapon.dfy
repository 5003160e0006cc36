/** The local weapon (static/js/weapon.js): a fire gate on cooldown, ammunition and
    reloading, the dispatch of a hit on a remote player, automatic reload on an empty
    magazine, and the reload timer's completion as an explicit event. The raycast is an
    input: it reports what the nearest intersection belongs to. Times are milliseconds. */
module Weapons {
  import opened Common

  const MaxAmmo: int := 30
  /** Seconds between two shots; the gate compares against `FireRate * 1000` ms. */
  const FireRate: real := 0.1
  /** Seconds a reload takes before its timer completes it. */
  const ReloadTime: real := 2.0

  /** What the nearest ray intersection belongs to. */
  datatype RayHit = NoHit | WorldHit | PlayerHit(owner: string)

  /** The weapon's fields; `reloadDoneAt` is when the pending reload timer fires. */
  datatype WeaponState = WeaponState(
    ammo: int, canShoot: bool, isReloading: bool, lastShotTime: real, reloadDoneAt: real)

  /** A newly created weapon (weapon.js constructor). */
  function Fresh(): WeaponState
  {
    WeaponState(MaxAmmo, true, false, 0.0, 0.0)
  }

  /** The invariant every step keeps: ammunition in range, `canShoot` the negation of
      `isReloading`, and an empty magazine always reloading. */
  predicate Consistent(s: WeaponState)
  {
    && 0 <= s.ammo <= MaxAmmo
    && s.canShoot == !s.isReloading
    && (s.ammo == 0 ==> s.isReloading)
  }

  /** The fire gate of `shoot`. */
  predicate CanFire(s: WeaponState, now: real)
  {
    !(!s.canShoot || s.isReloading || s.ammo <= 0 || now - s.lastShotTime < FireRate * 1000.0)
  }

  /** The player id that `shoot` reports to the server for a ray hit: only a player that
      is not the local one, and only a non-empty (truthy) id. */
  function ReportedTarget(hit: RayHit, localId: Option<string>): Option<string>
  {
    if hit.PlayerHit? && Some(hit.owner) != localId && hit.owner != "" then Some(hit.owner) else None
  }

  /** `reload`: ignored while reloading or with a full magazine; otherwise starts the timer. */
  function StartReload(s: WeaponState, now: real): WeaponState
  {
    if s.isReloading || s.ammo == MaxAmmo then s
    else s.(isReloading := true, canShoot := false, reloadDoneAt := now + ReloadTime * 1000.0)
  }

  /** `shoot` at time `now`: the new state and the target reported through `sendShot`, if any. */
  function ShootStep(s: WeaponState, now: real, hit: RayHit, localId: Option<string>): (WeaponState, Option<string>)
  {
    if !CanFire(s, now) then (s, None)
    else
      var fired := s.(lastShotTime := now, ammo := s.ammo - 1);
      (if fired.ammo <= 0 then StartReload(fired, now) else fired, ReportedTarget(hit, localId))
  }

  /** The reload timer's callback. */
  function FinishReload(s: WeaponState): WeaponState
  {
    s.(ammo := MaxAmmo, isReloading := false, canShoot := true)
  }

  /** A rejected shot changes nothing and reports nothing. */
  lemma RejectedShotIsNoOp(s: WeaponState, now: real, hit: RayHit, localId: Option<string>)
    requires !s.canShoot || s.isReloading || s.ammo <= 0 || now - s.lastShotTime < 100.0
    ensures ShootStep(s, now, hit, localId) == (s, None)
  {
  }

  /** An accepted shot uses exactly one round and records its time. */
  lemma AcceptedShotUsesOneRound(s: WeaponState, now: real, hit: RayHit, localId: Option<string>)
    requires s.canShoot && !s.isReloading && s.ammo > 0 && now - s.lastShotTime >= 100.0
    ensures ShootStep(s, now, hit, localId).0.ammo == s.ammo - 1
    ensures ShootStep(s, now, hit, localId).0.lastShotTime == now
  {
  }

  /** `sendShot` happens at most once per shot, exactly when the shot is accepted and the
      nearest hit is a remote player, and it names that player. */
  lemma ReportOnlyForRemoteHit(s: WeaponState, now: real, hit: RayHit, localId: Option<string>)
    ensures ShootStep(s, now, hit, localId).1.Some? <==>
      CanFire(s, now) && hit.PlayerHit? && Some(hit.owner) != localId && hit.owner != ""
    ensures ShootStep(s, now, hit, localId).1.Some? ==> ShootStep(s, now, hit, localId).1.value == hit.owner
  {
  }

  /** The shot that empties the magazine starts the reload and disables shooting. */
  lemma LastRoundStartsReload(s: WeaponState, now: real, hit: RayHit, localId: Option<string>)
    requires CanFire(s, now) && s.ammo == 1
    ensures var t := ShootStep(s, now, hit, localId).0;
      t.ammo == 0 && t.isReloading && !t.canShoot && t.reloadDoneAt == now + 2000.0
  {
  }

  /** `reload` is ignored while reloading or with a full magazine, and otherwise starts
      reloading without touching the ammunition. */
  lemma ReloadGuard(s: WeaponState, now: real)
    ensures s.isReloading || s.ammo == MaxAmmo ==> StartReload(s, now) == s
    ensures !s.isReloading && s.ammo != MaxAmmo ==>
      var t := StartReload(s, now);
      t.isReloading && !t.canShoot && t.ammo == s.ammo && t.lastShotTime == s.lastShotTime
  {
  }

  /** Completion refills the magazine, and afterwards the gate opens again once the
      cooldown since the last shot has passed. */
  lemma FinishReloadReopensGate(s: WeaponState, now: real)
    requires now - s.lastShotTime >= 100.0
    ensures FinishReload(s).ammo == MaxAmmo
    ensures CanFire(FinishReload(s), now)
  {
  }

  /** Every step keeps ammunition within [0, 30] and the other parts of the invariant. */
  lemma StepsKeepConsistent(s: WeaponState, now: real, hit: RayHit, localId: Option<string>)
    requires Consistent(s)
    ensures Consistent(ShootStep(s, now, hit, localId).0)
    ensures Consistent(StartReload(s, now))
    ensures Consistent(FinishReload(s))
  {
  }

  /** While a reload is pending, every shot is rejected. */
  lemma ReloadingRejectsShots(s: WeaponState, now: real, hit: RayHit, localId: Option<string>)
    requires s.isReloading
    ensures ShootStep(s, now, hit, localId) == (s, None)
  {
  }

  /** The very first shot of a fresh weapon needs `now >= 100`, because the last shot
      time starts at 0. */
  lemma FirstShotNeedsCooldownFromZero(now: real, hit: RayHit, localId: Option<string>)
    ensures CanFire(Fresh(), now) <==> now >= 100.0
  {
  }

  /** Times that are each at least the cooldown after the previous shot. */
  predicate Spaced(last: real, times: seq<real>)
    decreases |times|
  {
    times == [] || (times[0] - last >= 100.0 && Spaced(times[0], times[1..]))
  }

  /** Shooting (at nothing) at each of the given times in turn. */
  function ShootAll(s: WeaponState, times: seq<real>): WeaponState
    decreases |times|
  {
    if times == [] then s else ShootAll(ShootStep(s, times[0], NoHit, None).0, times[1..])
  }

  /** Shots spaced by the cooldown, one per round left, all get through and leave an
      empty, reloading weapon. */
  lemma {:induction false} SpacedShotsEmptyMagazine(s: WeaponState, times: seq<real>)
    requires Consistent(s) && !s.isReloading && |times| == s.ammo && Spaced(s.lastShotTime, times)
    ensures var t := ShootAll(s, times); t.ammo == 0 && t.isReloading && !t.canShoot
    decreases |times|
  {
    var next := ShootStep(s, times[0], NoHit, None).0;
    if s.ammo > 1 {
      assert next.lastShotTime == times[0] && next.ammo == s.ammo - 1 && !next.isReloading;
      SpacedShotsEmptyMagazine(next, times[1..]);
    } else {
      assert times[1..] == [];
    }
  }

  /** Thirty accepted shots on a fresh weapon leave it empty and reloading. */
  lemma FullMagazineThenReload(times: seq<real>)
    requires |times| == MaxAmmo && Spaced(0.0, times)
    ensures var t := ShootAll(Fresh(), times); t.ammo == 0 && t.isReloading && !t.canShoot
  {
    SpacedShotsEmptyMagazine(Fresh(), times);
  }

  /** The weapon object, with the fields weapon.js updates in place. */
  class Weapon {
    var ammo: int
    var canShoot: bool
    var isReloading: bool
    var lastShotTime: real
    var reloadDoneAt: real

    function State(): WeaponState
      reads this
    {
      WeaponState(ammo, canShoot, isReloading, lastShotTime, reloadDoneAt)
    }

    ghost predicate Valid()
      reads this
    {
      Consistent(State())
    }

    constructor ()
      ensures Valid() && State() == Fresh()
    {
      ammo, canShoot, isReloading, lastShotTime, reloadDoneAt := MaxAmmo, true, false, 0.0, 0.0;
    }

    /** `shoot()`; returns the id passed to `sendShot`, if any. */
    method Shoot(now: real, hit: RayHit, localId: Option<string>) returns (shotAt: Option<string>)
      requires Valid()
      modifies this
      ensures Valid()
      ensures (State(), shotAt) == ShootStep(old(State()), now, hit, localId)
    {
      if !canShoot || isReloading || ammo <= 0 || now - lastShotTime < FireRate * 1000.0 {
        return None;
      }
      lastShotTime := now;
      ammo := ammo - 1;
      shotAt := None;
      match hit {
        case PlayerHit(owner) =>
          var hitPlayerId: Option<string> := None;
          if Some(owner) != localId {
            hitPlayerId := Some(owner);
          }
          if hitPlayerId.Some? && hitPlayerId.value != "" {
            shotAt := hitPlayerId;
          }
        case WorldHit =>
        case NoHit =>
      }
      if ammo <= 0 {
        Reload(now);
      }
    }

    /** `reload()`: starts the reload timer unless already reloading or full. */
    method Reload(now: real)
      modifies this
      ensures State() == StartReload(old(State()), now)
      ensures old(Valid()) ==> Valid()
    {
      if isReloading || ammo == MaxAmmo {
        return;
      }
      isReloading := true;
      canShoot := false;
      reloadDoneAt := now + ReloadTime * 1000.0;
    }

    /** The reload timer firing at `now`; it exists only while a reload is pending. */
    method CompleteReload(now: real)
      requires Valid() && isReloading && now >= reloadDoneAt
      modifies this
      ensures Valid()
      ensures State() == FinishReload(old(State()))
    {
      ammo := MaxAmmo;
      isReloading := false;
      canShoot := true;
    }
  }
}
