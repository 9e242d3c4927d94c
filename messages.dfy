/** The outbound message sink. The core only produces messages; how other
    subsystems fulfil them is outside the model, so the sender is an
    append-only log of everything sent, in order. */
module Messages {
  import opened Common

  datatype Message =
    | ShowItemDisplay(item: ItemKind, count: nat)
    | PickUpItem(actor: Handle, itemHandle: Handle)
    | SyncInventory
    | SyncJournal
    | CallElevator(elevator: Handle, floor: u32)
    | SetCallButtonFloor(callButton: Handle, floor: u32)
    | GrabWeapon(weaponKind: WeaponKind, actor: Handle)
      /** Stands for a call to `Character::next_weapon`, whose code is not part of this model. */
    | NextWeaponCall
      /** Stands for a call to `Character::prev_weapon`, whose code is not part of this model. */
    | PrevWeaponCall
    | ShootWeapon(weapon: Handle, aimDirection: Option<Vec3>)
    | ShootRay(shooter: Shooter, begin: Vec3, end: Vec3, damage: real, shotEffect: int)
    | CreateProjectile(kind: ProjectileKind, position: Vec3, direction: Vec3,
                       initialVelocity: Vec3, shooter: Shooter)
    | SwitchFlashLight(weapon: Handle)
    | PlaySound(path: string, position: Vec3, gain: real, rolloffFactor: real, radius: real)

  class MessageSender {
    /** Every message sent so far, oldest first. */
    var sent: seq<Message>

    constructor ()
      ensures sent == []
    {
      sent := [];
    }

    method Send(m: Message)
      modifies this
      ensures sent == old(sent) + [m]
    {
      sent := sent + [m];
    }
  }
}
