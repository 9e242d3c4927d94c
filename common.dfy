/** Values shared by the weapon, player and trail models: generational handles
    (reduced to plain integers with NONE = 0), an Option type, 3-vectors over the
    reals, the closed enumerations the core switches on, and the unsigned 32-bit
    arithmetic that the elevator logic relies on. */
module Common {

  /** A pool handle. The generation counter of the engine's arena is not modelled:
      two handles are the same entity exactly when they are equal. */
  type Handle = int

  /** `Handle::NONE`, also what `Default::default()` yields for a handle. */
  const NONE: Handle := 0

  datatype Option<T> = None | Some(value: T)

  datatype Vec3 = Vec3(x: real, y: real, z: real)

  function Add(a: Vec3, b: Vec3): Vec3 {
    Vec3(a.x + b.x, a.y + b.y, a.z + b.z)
  }

  function Sub(a: Vec3, b: Vec3): Vec3 {
    Vec3(a.x - b.x, a.y - b.y, a.z - b.z)
  }

  function Scale(v: Vec3, k: real): Vec3 {
    Vec3(k * v.x, k * v.y, k * v.z)
  }

  const Zero: Vec3 := Vec3(0.0, 0.0, 0.0)

  /** The weapon kinds; `current_weapon_kind` matches on exactly these five. */
  datatype WeaponKind = M4 | Ak47 | PlasmaRifle | RailGun | Glock

  /** Item kinds. Only ammunition and grenades are consulted by the core; the
      remaining kinds are carried as an opaque tag. */
  datatype ItemKind = Ammo | GrenadeItem | OtherItem(tag: int)

  /** Projectile kinds. The grenade is the only one the player creates by name;
      the kinds a weapon definition may name are carried as an opaque tag. */
  datatype ProjectileKind = Grenade | OtherProjectile(tag: int)

  /** Who fired a ray or a projectile. */
  datatype Shooter =
    | NoShooter
    | ActorShooter(actor: Handle)
    | WeaponShooter(weapon: Handle)
    | TurretShooter(turret: Handle)

  // ---------------------------------------------------------------------------
  // Unsigned machine integers

  const U32_LIMIT: int := 0x1_0000_0000

  type u32 = x: int | 0 <= x < U32_LIMIT

  /** `a.saturating_sub(b)` on unsigned integers: never below zero. */
  function SaturatingSub(a: nat, b: nat): (r: nat)
    ensures a >= b ==> r == a - b
    ensures a < b ==> r == 0
  {
    if a >= b then a - b else 0
  }

  /** `a.saturating_add(b)` on `u32`: never past `u32::MAX`. */
  function SaturatingAddU32(a: u32, b: u32): (r: u32)
    ensures a + b < U32_LIMIT ==> r == a + b
    ensures a + b >= U32_LIMIT ==> r == U32_LIMIT - 1
  {
    if a + b < U32_LIMIT then a + b else U32_LIMIT - 1
  }

  /** `n as u32` for an unsigned `n`: keeps the low 32 bits. */
  function AsU32(n: nat): (r: u32)
    ensures n < U32_LIMIT ==> r == n
  {
    n % U32_LIMIT
  }
}
