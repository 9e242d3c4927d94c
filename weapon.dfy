/** A weapon's timing state: the fire-rate cooldown, the time stamp of the last
    shot, the muzzle-flash countdown, the shot sound, and the choice between a
    physical projectile and an instant ray that the weapon's definition makes.
    The scene graph and textures a shot also touches are outside the model. */
module Weapons {
  import opened Common
  import opened Messages

  /** What a shot produces: a physical projectile, or an instant hit-scan ray. */
  datatype WeaponProjectile = Projectile(kind: ProjectileKind) | Ray(damage: real)

  /** The static, per-kind part of a weapon that the core consults. */
  datatype WeaponDefinition = WeaponDefinition(
    shootInterval: real,
    projectile: WeaponProjectile,
    ammoConsumptionPerShot: nat,
    shotEffect: int,
    shotSounds: seq<string>)

  /** Seconds the muzzle flash stays visible after a shot. */
  const MUZZLE_FLASH_DURATION: real := 0.075

  /** Fixed range of a hit-scan ray. */
  const RAY_RANGE: real := 1000.0

  /** Gain, roll-off factor and radius of a shot sound. */
  const SHOT_SOUND_GAIN: real := 1.0
  const SHOT_SOUND_ROLLOFF: real := 5.0
  const SHOT_SOUND_RADIUS: real := 3.0

  /** The cooldown test of `can_shoot`. */
  predicate CooledDown(lastShotTime: real, shootInterval: real, now: real) {
    now - lastShotTime >= shootInterval
  }

  /** The sound a shot plays: one of the definition's shot sounds, at the shot
      position, or nothing when the definition lists none. `pick` stands for the
      random choice. */
  function ShotSound(def: WeaponDefinition, pick: nat, position: Vec3): (ms: seq<Message>)
    ensures |ms| == (if |def.shotSounds| == 0 then 0 else 1)
    ensures forall m :: m in ms ==>
              && m.PlaySound? && m.path in def.shotSounds && m.position == position
              && m.gain == 1.0 && m.rolloffFactor == 5.0 && m.radius == 3.0
  {
    if |def.shotSounds| == 0 then []
    else [PlaySound(def.shotSounds[pick % |def.shotSounds|], position,
                    SHOT_SOUND_GAIN, SHOT_SOUND_ROLLOFF, SHOT_SOUND_RADIUS)]
  }

  /** The message a shot sends, by the definition's projectile mode. A ray weapon
      sends a ray from the shot position, exactly 1000 units long along the
      direction, with the definition's damage; any other weapon sends a
      projectile with no initial velocity. Either way the weapon itself is named
      as the shooter. */
  function ShotMessage(def: WeaponDefinition, self: Handle, position: Vec3, direction: Vec3): (m: Message)
    ensures def.projectile.Ray? <==> m.ShootRay?
    ensures m.ShootRay? ==> && m.begin == position
                            && Sub(m.end, m.begin) == Scale(direction, 1000.0)
                            && m.damage == def.projectile.damage
                            && m.shooter == WeaponShooter(self)
    ensures m.CreateProjectile? ==> && m.kind == def.projectile.kind && m.position == position
                                    && m.direction == direction && m.initialVelocity == Zero
                                    && m.shooter == WeaponShooter(self)
  {
    match def.projectile
    case Projectile(kind) => CreateProjectile(kind, position, direction, Zero, WeaponShooter(self))
    case Ray(damage) =>
      ShootRay(WeaponShooter(self), position, Add(position, Scale(direction, RAY_RANGE)),
               damage, def.shotEffect)
  }

  class Weapon {
    const kind: WeaponKind
    const definition: WeaponDefinition
    /** Whether the model has a muzzle-flash node (and hence a shot light). */
    const hasMuzzleFlash: bool
    var lastShotTime: real
    var muzzleFlashTimer: real
    var muzzleFlashVisible: bool
    var shotLightVisible: bool
    var owner: Handle

    /** `Weapon::new`: a weapon counted as fired at time 0, with no owner and a
        zero flash timer. The shot light is created hidden; the muzzle flash
        keeps the visibility `assetFlashVisible` the model asset gives it. */
    constructor (kind: WeaponKind, definition: WeaponDefinition, hasMuzzleFlash: bool,
                 assetFlashVisible: bool)
      ensures this.kind == kind && this.definition == definition
      ensures this.hasMuzzleFlash == hasMuzzleFlash
      ensures lastShotTime == 0.0 && muzzleFlashTimer == 0.0 && owner == NONE
      ensures muzzleFlashVisible == (hasMuzzleFlash && assetFlashVisible) && !shotLightVisible
    {
      this.kind := kind;
      this.definition := definition;
      this.hasMuzzleFlash := hasMuzzleFlash;
      lastShotTime := 0.0;
      muzzleFlashTimer := 0.0;
      muzzleFlashVisible := hasMuzzleFlash && assetFlashVisible;
      shotLightVisible := false;
      owner := NONE;
    }

    predicate CanShoot(now: real)
      reads this
    {
      CooledDown(lastShotTime, definition.shootInterval, now)
    }

    method SetOwner(owner: Handle)
      modifies this
      ensures this.owner == owner
      ensures lastShotTime == old(lastShotTime) && muzzleFlashTimer == old(muzzleFlashTimer)
      ensures muzzleFlashVisible == old(muzzleFlashVisible) && shotLightVisible == old(shotLightVisible)
    {
      this.owner := owner;
    }

    /** `shoot`: stamps the shot time, plays a shot sound when the definition
        has any, lights the muzzle flash for a fixed time when the model has
        one, and sends the projectile or ray request. The shot goes along
        `aimDirection` when one is given and along the weapon's own
        `shotDirection` otherwise; both stand for directions that are already
        normalised. `soundPick` stands for the random choice of sound. */
    method Shoot(self: Handle, now: real, position: Vec3, aimDirection: Option<Vec3>,
                 shotDirection: Vec3, soundPick: nat, sender: MessageSender)
      modifies this, sender
      ensures lastShotTime == now && owner == old(owner)
      ensures hasMuzzleFlash ==>
                muzzleFlashTimer == MUZZLE_FLASH_DURATION && muzzleFlashVisible && shotLightVisible
      ensures !hasMuzzleFlash ==>
                && muzzleFlashTimer == old(muzzleFlashTimer)
                && muzzleFlashVisible == old(muzzleFlashVisible)
                && shotLightVisible == old(shotLightVisible)
      ensures sender.sent == old(sender.sent) + ShotSound(definition, soundPick, position)
                             + [ShotMessage(definition, self, position,
                                            if aimDirection.Some? then aimDirection.value else shotDirection)]
      ensures CanShoot(now) <==> definition.shootInterval <= 0.0
    {
      lastShotTime := now;
      if |definition.shotSounds| > 0 {
        sender.Send(PlaySound(definition.shotSounds[soundPick % |definition.shotSounds|], position,
                              SHOT_SOUND_GAIN, SHOT_SOUND_ROLLOFF, SHOT_SOUND_RADIUS));
      }
      if hasMuzzleFlash {
        muzzleFlashVisible := true;
        shotLightVisible := true;
        muzzleFlashTimer := MUZZLE_FLASH_DURATION;
      }
      var direction := if aimDirection.Some? then aimDirection.value else shotDirection;
      sender.Send(ShotMessage(definition, self, position, direction));
    }

    /** The muzzle-flash part of `update`: count the timer down and hide the flash
        and its light once the timer has run out. */
    method Update(dt: real)
      modifies this
      ensures muzzleFlashTimer == old(muzzleFlashTimer) - dt
      ensures muzzleFlashTimer <= 0.0 && hasMuzzleFlash ==> !muzzleFlashVisible && !shotLightVisible
      ensures !(muzzleFlashTimer <= 0.0 && hasMuzzleFlash) ==>
                muzzleFlashVisible == old(muzzleFlashVisible) && shotLightVisible == old(shotLightVisible)
      ensures lastShotTime == old(lastShotTime) && owner == old(owner)
    {
      muzzleFlashTimer := muzzleFlashTimer - dt;
      if muzzleFlashTimer <= 0.0 && hasMuzzleFlash {
        muzzleFlashVisible := false;
        shotLightVisible := false;
      }
    }
  }

  // ---------------------------------------------------------------------------
  // Properties

  /** Once a weapon is ready it stays ready until the next shot. */
  lemma CooldownIsMonotone(lastShotTime: real, shootInterval: real, t: real, t': real)
    requires t <= t' && CooledDown(lastShotTime, shootInterval, t)
    ensures CooledDown(lastShotTime, shootInterval, t')
  {
  }

  /** A weapon with a 0.1 s interval fired at time 1.0 cannot fire again at 1.05
      but can at 1.11; a fresh one, counted as fired at time 0, is not ready at
      0.05 but is at 0.1. */
  lemma CooldownScenario()
    ensures !CooledDown(1.0, 0.1, 1.05) && CooledDown(1.0, 0.1, 1.11)
    ensures !CooledDown(0.0, 0.1, 0.05) && CooledDown(0.0, 0.1, 0.1)
  {
  }
}
