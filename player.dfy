/** The player controller: the per-frame decisions of the player character
    (stun on heavy damage, the four animation-signal drains, item pick-up,
    elevator interaction, the aimed-shot ammunition gate, run-factor easing) and
    the handling of one input event. Positions, distances and everything the
    scene graph and the physics engine compute are inputs here; the animation
    clips the player drives are `Clip` objects passed in. */
module Players {
  import opened Common
  import opened Messages
  import opened Inventories
  import opened Animation
  import opened Weapons
  import opened PlayerInput
  import opened Floors

  // ---------------------------------------------------------------------------
  // The two animation machines, as far as the controller inspects them

  /** The lower-body machine's active state and transition and the handles of
      the states and transitions the controller compares them with. */
  datatype LowerBodyMachine = LowerBodyMachine(
    activeState: Handle,
    activeTransition: Handle,
    idleToJump: Handle,
    walkToJump: Handle,
    jumpState: Handle,
    fallState: Handle,
    landState: Handle)

  /** The lower body is taking off or in the jump state. */
  predicate InJumpPhase(m: LowerBodyMachine) {
    m.activeTransition == m.idleToJump || m.activeTransition == m.walkToJump
    || m.activeState == m.jumpState
  }

  /** `can_move`: the player steers except while falling or landing. */
  predicate CanMoveIn(m: LowerBodyMachine) {
    m.activeState != m.fallState && m.activeState != m.landState
  }

  datatype UpperBodyMachine = UpperBodyMachine(activeState: Handle, aimState: Handle)

  /** The weapon class the animation machines are told about. */
  datatype CombatWeaponKind = Rifle | Pistol

  /** `current_weapon_kind`'s mapping: only the pistol is held as a pistol, and
      with no weapon equipped the rifle poses are used. */
  function CombatKind(kind: Option<WeaponKind>): (r: CombatWeaponKind)
    ensures r == Pistol <==> kind == Some(Glock)
  {
    match kind
    case None => Rifle
    case Some(k) =>
      match k
      case M4 => Rifle
      case Ak47 => Rifle
      case PlasmaRifle => Rifle
      case RailGun => Rifle
      case Glock => Pistol
  }

  /** What the lower-body machine is told each frame. */
  datatype LowerBodyInput = LowerBodyInput(
    isWalking: bool,
    isJumping: bool,
    hasGroundContact: bool,
    runFactor: real,
    isDead: bool,
    shouldBeStunned: bool,
    weaponKind: CombatWeaponKind)

  /** What the upper-body machine is told each frame. */
  datatype UpperBodyInput = UpperBodyInput(
    isWalking: bool,
    isJumping: bool,
    hasGroundContact: bool,
    isAiming: bool,
    tossGrenade: bool,
    weaponKind: CombatWeaponKind,
    changeWeapon: bool,
    runFactor: real,
    isDead: bool,
    shouldBeStunned: bool)

  datatype MachineInputs = MachineInputs(lower: LowerBodyInput, upper: UpperBodyInput)

  /** Damage of at least this much since the last stun stuns the player. */
  const STUN_DAMAGE: real := 15.0

  /** Distance under which an item, elevator or call button is within reach. */
  const REACH: real := 0.75

  /** Vertical speed factor a jump signal gives, per second of frame time. */
  const JUMP_SPEED: real := 3.0

  /** Initial speed of a tossed grenade along the look direction. */
  const GRENADE_SPEED: real := 15.0

  /** Fraction of the gap to the target run factor closed each frame. */
  const RUN_EASING: real := 0.1

  /** In-air time after which the machines no longer see ground contact. */
  const GROUND_CONTACT_GRACE: real := 0.3

  /** The message a grab-weapon signal sends for a pending request. */
  function GrabMessages(pending: RequiredWeapon, self: Handle): (ms: seq<Message>)
    ensures |ms| <= 1
    ensures |ms| == 0 <==> pending == NoRequest
    ensures pending.Specific? ==> ms == [GrabWeapon(pending.kind, self)]
  {
    match pending
    case NoRequest => []
    case Next => [NextWeaponCall]
    case Previous => [PrevWeaponCall]
    case Specific(kind) => [GrabWeapon(kind, self)]
  }

  /** The grenade a toss signal throws: from the weapon pivot along the camera's
      look direction, with an initial velocity of 15 units along it. */
  function GrenadeMessage(self: Handle, position: Vec3, direction: Vec3): Message {
    CreateProjectile(Grenade, position, direction, Scale(direction, GRENADE_SPEED), ActorShooter(self))
  }

  function Repeat(m: Message, n: nat): (ms: seq<Message>)
    ensures |ms| == n && forall i :: 0 <= i < n ==> ms[i] == m
  {
    seq(n, _ => m)
  }

  // ---------------------------------------------------------------------------
  // What the player sees around it

  /** An item of the level, with its distance from the player. */
  datatype ItemEntry = ItemEntry(handle: Handle, kind: ItemKind, stackSize: nat, distance: real)

  /** The first item within reach at or after index `i`, in container order. */
  function FirstItemInReach(items: seq<ItemEntry>, i: nat): (r: Option<nat>)
    requires i <= |items|
    ensures r.Some? ==> i <= r.value < |items| && items[r.value].distance < REACH
                        && forall k :: i <= k < r.value ==> items[k].distance >= REACH
    ensures r.None? ==> forall k :: i <= k < |items| ==> items[k].distance >= REACH
    decreases |items| - i
  {
    if i == |items| then None
    else if items[i].distance < REACH then Some(i)
    else FirstItemInReach(items, i + 1)
  }

  /** What reaching an item sends: the item display request and, when the action
      key is held, the pick-up and an inventory refresh. */
  function ItemMessages(item: ItemEntry, self: Handle, action: bool): seq<Message> {
    [ShowItemDisplay(item.kind, item.stackSize)]
    + (if action then [PickUpItem(self, item.handle), SyncInventory] else [])
  }

  datatype CallButtonKind = FloorSelector | OtherCallButton

  /** A call button of an elevator, with its distance from the player. */
  datatype CallButtonEntry = CallButtonEntry(handle: Handle, distance: real, kind: CallButtonKind, floor: u32)

  /** An elevator, with its distance from the player, its floor, the number of
      points of its shaft and its call buttons. */
  datatype ElevatorEntry = ElevatorEntry(
    handle: Handle,
    distance: real,
    currentFloor: u32,
    pointCount: nat,
    callButtons: seq<CallButtonEntry>)

  /** What the elevator's own pad sends: a call to the other end of the shaft,
      when the player is on it and holds the action key. */
  function PadMessages(e: ElevatorEntry, c: InputController): seq<Message> {
    if e.distance < REACH && c.action then
      match PadCall(e.currentFloor, e.pointCount)
      case Some(floor) => [CallElevator(e.handle, floor)]
      case None => []
    else []
  }

  /** What one call button within reach sends: a floor selector moves its floor
      with the cursor keys, and any button calls the elevator to its floor when
      the action key is held. */
  function ButtonMessages(e: ElevatorEntry, b: CallButtonEntry, c: InputController): seq<Message> {
    if b.distance < REACH then
      (if b.kind == FloorSelector then
         match SelectFloor(b.floor, e.pointCount, c.cursorUp, c.cursorDown)
         case Some(floor) => [SetCallButtonFloor(b.handle, floor)]
         case None => []
       else [])
      + (if c.action then [CallElevator(e.handle, b.floor)] else [])
    else []
  }

  /** The messages of the first `n` call buttons of `e`, in order. */
  function AllButtonMessages(e: ElevatorEntry, n: nat, c: InputController): seq<Message>
    requires n <= |e.callButtons|
  {
    if n == 0 then []
    else AllButtonMessages(e, n - 1, c) + ButtonMessages(e, e.callButtons[n - 1], c)
  }

  function ElevatorMessages(e: ElevatorEntry, c: InputController): seq<Message> {
    PadMessages(e, c) + AllButtonMessages(e, |e.callButtons|, c)
  }

  /** The messages of the first `n` elevators, in order. */
  function AllElevatorMessages(elevators: seq<ElevatorEntry>, n: nat, c: InputController): seq<Message>
    requires n <= |elevators|
  {
    if n == 0 then []
    else AllElevatorMessages(elevators, n - 1, c) + ElevatorMessages(elevators[n - 1], c)
  }

  /** No elevator is called unless the action key is held, and no floor selector
      moves unless a cursor key is held. */
  lemma {:induction false} ElevatorsNeedInput(elevators: seq<ElevatorEntry>, n: nat, c: InputController)
    requires n <= |elevators|
    ensures !c.action ==> forall m :: m in AllElevatorMessages(elevators, n, c) ==> !m.CallElevator?
    ensures !c.cursorUp && !c.cursorDown ==>
              forall m :: m in AllElevatorMessages(elevators, n, c) ==> !m.SetCallButtonFloor?
  {
    if n > 0 {
      var e := elevators[n - 1];
      ElevatorsNeedInput(elevators, n - 1, c);
      ButtonsNeedInput(e, |e.callButtons|, c);
      assert AllElevatorMessages(elevators, n, c)
             == AllElevatorMessages(elevators, n - 1, c) + PadMessages(e, c) + AllButtonMessages(e, |e.callButtons|, c);
    }
  }

  lemma {:induction false} ButtonsNeedInput(e: ElevatorEntry, n: nat, c: InputController)
    requires n <= |e.callButtons|
    ensures !c.action ==> forall m :: m in AllButtonMessages(e, n, c) ==> !m.CallElevator?
    ensures !c.cursorUp && !c.cursorDown ==>
              forall m :: m in AllButtonMessages(e, n, c) ==> !m.SetCallButtonFloor?
  {
    if n > 0 {
      ButtonsNeedInput(e, n - 1, c);
      assert AllButtonMessages(e, n, c) == AllButtonMessages(e, n - 1, c) + ButtonMessages(e, e.callButtons[n - 1], c);
    }
  }

  /** Every floor a selector within reach is moved to is a floor of its elevator,
      when the selectors' floors are floors of it and the elevator has between one
      and 2^32 - 1 points. */
  lemma {:induction false} SelectedFloorsAreValid(e: ElevatorEntry, n: nat, c: InputController)
    requires n <= |e.callButtons|
    requires 1 <= e.pointCount < U32_LIMIT
    requires forall b :: b in e.callButtons ==> b.floor < e.pointCount
    ensures forall m :: m in AllButtonMessages(e, n, c) && m.SetCallButtonFloor? ==>
              m.floor < e.pointCount
  {
    if n > 0 {
      var b := e.callButtons[n - 1];
      assert b in e.callButtons;
      SelectedFloorsAreValid(e, n - 1, c);
      ButtonSelectsValidFloor(e, b, c);
      assert AllButtonMessages(e, n, c) == AllButtonMessages(e, n - 1, c) + ButtonMessages(e, b, c);
    }
  }

  /** The floor one selector within reach is moved to is a floor of its elevator. */
  lemma ButtonSelectsValidFloor(e: ElevatorEntry, b: CallButtonEntry, c: InputController)
    requires 1 <= e.pointCount < U32_LIMIT && b.floor < e.pointCount
    ensures forall m :: m in ButtonMessages(e, b, c) && m.SetCallButtonFloor? ==> m.floor < e.pointCount
  {
    SelectorStaysOnValidFloors(b.floor, e.pointCount, c.cursorUp, c.cursorDown);
  }

  /** One frame of run-factor easing: the factor moves a tenth of the way toward
      its target, so it lies between the old factor and the target, strictly
      closer to the target unless already there. A factor and target in [0, 1]
      give a factor in [0, 1]. */
  function EaseRunFactor(runFactor: real, target: real): (r: real)
    ensures runFactor < target ==> runFactor < r < target
    ensures target < runFactor ==> target < r < runFactor
    ensures runFactor == target ==> r == target
    ensures 0.0 <= runFactor <= 1.0 && 0.0 <= target <= 1.0 ==> 0.0 <= r <= 1.0
  {
    runFactor + (target - runFactor) * RUN_EASING
  }

  /** Interpolating between a speed and four times it, by a factor in [0, 1],
      stays between the two: the speed at factor `t` is the base speed plus
      `3t` times it. */
  lemma LerpSpeedBounds(moveSpeed: real, dt: real, t: real)
    ensures (moveSpeed + (moveSpeed * 4.0 - moveSpeed) * t) * dt
            == moveSpeed * dt + 3.0 * t * (moveSpeed * dt)
    ensures moveSpeed >= 0.0 && dt >= 0.0 && 0.0 <= t <= 1.0 ==>
              moveSpeed * dt <= (moveSpeed + (moveSpeed * 4.0 - moveSpeed) * t) * dt <= 4.0 * moveSpeed * dt
  {
    var md := moveSpeed * dt;
    assert (moveSpeed + (moveSpeed * 4.0 - moveSpeed) * t) * dt == md + 3.0 * t * md;
    if moveSpeed >= 0.0 && dt >= 0.0 && 0.0 <= t <= 1.0 {
      assert md >= 0.0;
      assert 0.0 <= t * md <= md;
    }
  }

  /** Starting from 0, two running frames give a run factor of 0.19. */
  lemma RunFactorScenario()
    ensures EaseRunFactor(EaseRunFactor(0.0, 1.0), 1.0) == 0.19
  {
  }

  /** The messages an input event sends: the flash-light switch for the equipped
      weapon on a press, and a refresh of the inventory or journal when its
      display is being shown. `inventoryShown` and `journalShown` are the
      displays' visibility before the event. */
  function InputMessages(act: Option<(Action, bool)>, weapon: Handle,
                         inventoryShown: bool, journalShown: bool): (ms: seq<Message>)
    ensures |ms| <= 1
    ensures ms == [SyncInventory] <==> act.Some? && act.value.0 == InventoryAction && !inventoryShown
    ensures ms == [SyncJournal] <==> act.Some? && act.value.0 == JournalAction && !journalShown
    ensures ms == [SwitchFlashLight(weapon)] <==> act == Some((FlashLightAction, true))
  {
    match act
    case None => []
    case Some((a, pressed)) =>
      if a == FlashLightAction && pressed then [SwitchFlashLight(weapon)]
      else if a == InventoryAction && !inventoryShown then [SyncInventory]
      else if a == JournalAction && !journalShown then [SyncJournal]
      else []
  }

  /** An aim press, or the inventory or journal binding: the bindings that
      change which displays are visible. */
  predicate TouchesDisplays(act: Option<(Action, bool)>) {
    act == Some((AimAction, true))
    || (act.Some? && (act.value.0 == InventoryAction || act.value.0 == JournalAction))
  }

  class Player {
    var controller: InputController
    /** The pending weapon change (`weapon_change_direction`). */
    var weaponChangeDirection: RequiredWeapon
    var health: real
    /** Health at the last stun. */
    var lastHealth: real
    var inventory: Inventory
    /** The character's weapons, in order. */
    var weapons: seq<Handle>
    /** Index of the equipped weapon in `weapons`. */
    var currentWeapon: u32
    var lowerBody: LowerBodyMachine
    var upperBody: UpperBodyMachine
    var runFactor: real
    var targetRunFactor: real
    var inAirTime: real
    var inventoryDisplayVisible: bool
    var journalDisplayVisible: bool
    var itemDisplayVisible: bool
    var weaponDisplayVisible: bool

    predicate IsDead()
      reads this
    {
      health <= 0.0
    }

    /** `should_be_stunned`: at least 15 health lost since the last stun. */
    predicate ShouldBeStunned()
      reads this
    {
      lastHealth - health >= STUN_DAMAGE
    }

    /** `is_walking`. */
    predicate Walking()
      reads this
    {
      IsWalking(controller)
    }

    /** `can_move`. */
    predicate CanMove()
      reads this
    {
      CanMoveIn(lowerBody)
    }

    /** `is_running`, with the lower-body machine's stun query as a parameter. */
    predicate IsRunning(stunned: bool)
      reads this
    {
      !IsDead() && controller.run && !controller.aim && !stunned
    }

    /** The upper body is in its aim state. */
    predicate Aiming()
      reads this
    {
      upperBody.activeState == upperBody.aimState
    }

    /** The handle of the equipped weapon, or NONE when the index is past the end. */
    function CurrentWeapon(): Handle
      reads this
    {
      if currentWeapon < |weapons| then weapons[currentWeapon] else NONE
    }

    /** The kind of the equipped weapon, looked up by handle, or None when no
        weapon is equipped. */
    function CurrentKind(kinds: map<Handle, WeaponKind>): Option<WeaponKind>
      requires CurrentWeapon() != NONE ==> CurrentWeapon() in kinds
      reads this
    {
      if CurrentWeapon() != NONE then Some(kinds[CurrentWeapon()]) else None
    }

    /** `current_weapon_kind`: the pistol poses exactly when a Glock is equipped. */
    function CurrentCombatKind(kinds: map<Handle, WeaponKind>): (r: CombatWeaponKind)
      requires CurrentWeapon() != NONE ==> CurrentWeapon() in kinds
      reads this
      ensures r == Pistol <==> CurrentWeapon() != NONE && kinds[CurrentWeapon()] == Glock
    {
      CombatKind(CurrentKind(kinds))
    }

    // -------------------------------------------------------------------------
    // Stun

    /** `stun`: enables and rewinds every hit-reaction clip of both machines and
        records the current health as the health at the last stun. */
    method Stun(hitReactions: seq<Clip>)
      modifies this`lastHealth, set c | c in hitReactions
      ensures lastHealth == health && !ShouldBeStunned()
      ensures forall c :: c in hitReactions ==>
                c.enabled && !c.ended && c.events == old(c.events)
    {
      for i := 0 to |hitReactions|
        invariant forall k :: 0 <= k < i ==> hitReactions[k].enabled && !hitReactions[k].ended
        invariant forall c :: c in hitReactions ==> c.events == old(c.events)
      {
        hitReactions[i].SetEnabled(true);
        hitReactions[i].Rewind();
      }
      lastHealth := health;
    }

    /** The stun step of the animation update: stun when at least 15 health was
        lost since the last stun. Afterwards the player is never due for a stun
        until more damage arrives. */
    method UpdateStun(hitReactions: seq<Clip>) returns (stunned: bool)
      modifies this`lastHealth, set c | c in hitReactions
      ensures stunned == old(ShouldBeStunned())
      ensures !ShouldBeStunned()
      ensures stunned ==> lastHealth == health
                          && forall c :: c in hitReactions ==> c.enabled && !c.ended
      ensures !stunned ==> lastHealth == old(lastHealth)
                           && forall c :: c in hitReactions ==> c.enabled == old(c.enabled) && c.ended == old(c.ended)
      ensures forall c :: c in hitReactions ==> c.events == old(c.events)
    {
      stunned := ShouldBeStunned();
      if stunned {
        Stun(hitReactions);
      }
    }

    // -------------------------------------------------------------------------
    // Animation signals

    /** `handle_jump_signal`: drains the lower-body jump clip; a jump signal
        crossed while taking off or in the jump state gives the new vertical
        velocity `3 * dt`. */
    method HandleJumpSignal(jumpClip: Clip, dt: real) returns (newYVel: Option<real>)
      modifies jumpClip
      ensures jumpClip.events == []
      ensures jumpClip.enabled == old(jumpClip.enabled) && jumpClip.ended == old(jumpClip.ended)
      ensures newYVel.Some? <==> JUMP_SIGNAL in old(jumpClip.events) && InJumpPhase(lowerBody)
      ensures newYVel.Some? ==> newYVel.value == JUMP_SPEED * dt
    {
      ghost var q0 := jumpClip.events;
      ghost var seen := 0;
      newYVel := None;
      var ev := jumpClip.PopEvent();
      while ev.Some?
        invariant seen <= |q0|
        invariant ev.Some? ==> seen < |q0| && ev.value == q0[seen] && jumpClip.events == q0[seen + 1..]
        invariant ev.None? ==> seen == |q0| && jumpClip.events == []
        invariant jumpClip.enabled == old(jumpClip.enabled) && jumpClip.ended == old(jumpClip.ended)
        invariant newYVel == (if JUMP_SIGNAL in q0[..seen] && InJumpPhase(lowerBody)
                              then Some(JUMP_SPEED * dt) else None)
        decreases |jumpClip.events| + (if ev.Some? then 1 else 0)
      {
        if ev.value == JUMP_SIGNAL && InJumpPhase(lowerBody) {
          newYVel := Some(JUMP_SPEED * dt);
        }
        assert q0[..seen + 1] == q0[..seen] + [q0[seen]];
        seen := seen + 1;
        ev := jumpClip.PopEvent();
      }
      assert q0[..seen] == q0;
    }

    /** `handle_weapon_grab_signal`: drains the grab clip; the first grab signal
        carries out the pending request (a grab of a specific kind, or a step to
        the next or previous weapon) and clears it, so later signals in the same
        drain send nothing. */
    method HandleWeaponGrabSignal(self: Handle, grabClip: Clip, sender: MessageSender)
      modifies this`weaponChangeDirection, grabClip, sender
      ensures grabClip.events == []
      ensures grabClip.enabled == old(grabClip.enabled) && grabClip.ended == old(grabClip.ended)
      ensures GRAB_WEAPON_SIGNAL in old(grabClip.events) ==>
                && weaponChangeDirection == NoRequest
                && sender.sent == old(sender.sent) + GrabMessages(old(weaponChangeDirection), self)
      ensures GRAB_WEAPON_SIGNAL !in old(grabClip.events) ==>
                weaponChangeDirection == old(weaponChangeDirection) && sender.sent == old(sender.sent)
    {
      ghost var q0 := grabClip.events;
      ghost var d0 := weaponChangeDirection;
      ghost var s0 := sender.sent;
      ghost var seen := 0;
      var ev := grabClip.PopEvent();
      while ev.Some?
        invariant seen <= |q0|
        invariant ev.Some? ==> seen < |q0| && ev.value == q0[seen] && grabClip.events == q0[seen + 1..]
        invariant ev.None? ==> seen == |q0| && grabClip.events == []
        invariant grabClip.enabled == old(grabClip.enabled) && grabClip.ended == old(grabClip.ended)
        invariant GRAB_WEAPON_SIGNAL in q0[..seen] ==>
                    weaponChangeDirection == NoRequest && sender.sent == s0 + GrabMessages(d0, self)
        invariant GRAB_WEAPON_SIGNAL !in q0[..seen] ==>
                    weaponChangeDirection == d0 && sender.sent == s0
        decreases |grabClip.events| + (if ev.Some? then 1 else 0)
      {
        if ev.value == GRAB_WEAPON_SIGNAL {
          match weaponChangeDirection {
            case NoRequest =>
            case Next => sender.Send(NextWeaponCall);
            case Previous => sender.Send(PrevWeaponCall);
            case Specific(kind) => sender.Send(GrabWeapon(kind, self));
          }
          weaponChangeDirection := NoRequest;
        }
        assert q0[..seen + 1] == q0[..seen] + [q0[seen]];
        seen := seen + 1;
        ev := grabClip.PopEvent();
      }
      assert q0[..seen] == q0;
    }

    /** `handle_put_back_weapon_end_signal`: drains the put-back clip and, when
        the put-back has ended, enables the grab clip. */
    method HandlePutBackWeaponEndSignal(putBackClip: Clip, grabClip: Clip)
      modifies putBackClip, grabClip`enabled
      ensures putBackClip.events == [] && putBackClip.ended == old(putBackClip.ended)
      ensures PUT_BACK_WEAPON_END_SIGNAL in old(putBackClip.events) ==> grabClip.enabled
      ensures PUT_BACK_WEAPON_END_SIGNAL !in old(putBackClip.events) ==>
                grabClip.enabled == old(grabClip.enabled)
      ensures putBackClip != grabClip ==> putBackClip.enabled == old(putBackClip.enabled)
    {
      ghost var q0 := putBackClip.events;
      ghost var seen := 0;
      var ev := putBackClip.PopEvent();
      while ev.Some?
        invariant seen <= |q0|
        invariant ev.Some? ==> seen < |q0| && ev.value == q0[seen] && putBackClip.events == q0[seen + 1..]
        invariant ev.None? ==> seen == |q0| && putBackClip.events == []
        invariant putBackClip.ended == old(putBackClip.ended)
        invariant putBackClip != grabClip ==> putBackClip.enabled == old(putBackClip.enabled)
        invariant PUT_BACK_WEAPON_END_SIGNAL in q0[..seen] ==> grabClip.enabled
        invariant PUT_BACK_WEAPON_END_SIGNAL !in q0[..seen] ==> grabClip.enabled == old(grabClip.enabled)
        decreases |putBackClip.events| + (if ev.Some? then 1 else 0)
      {
        if ev.value == PUT_BACK_WEAPON_END_SIGNAL {
          grabClip.enabled := true;
        }
        assert q0[..seen + 1] == q0[..seen] + [q0[seen]];
        seen := seen + 1;
        ev := putBackClip.PopEvent();
      }
      assert q0[..seen] == q0;
    }

    /** `handle_toss_grenade_signal`: drains the toss clip; each toss signal takes
        one grenade from the inventory and, when one was there, throws it. So as
        many grenades are thrown as there were toss signals, but never more than
        were carried. */
    method HandleTossGrenadeSignal(self: Handle, tossClip: Clip, position: Vec3, direction: Vec3,
                                   sender: MessageSender)
      modifies this`inventory, tossClip, sender
      ensures tossClip.events == []
      ensures tossClip.enabled == old(tossClip.enabled) && tossClip.ended == old(tossClip.ended)
      ensures var tossed := Occurrences(old(tossClip.events), TOSS_GRENADE_SIGNAL);
              var carried := Count(old(inventory), GrenadeItem);
              var thrown := if tossed < carried then tossed else carried;
              && Count(inventory, GrenadeItem) == carried - thrown
              && sender.sent == old(sender.sent) + Repeat(GrenadeMessage(self, position, direction), thrown)
      ensures forall k :: k != GrenadeItem ==> Count(inventory, k) == Count(old(inventory), k)
    {
      ghost var q0 := tossClip.events;
      ghost var s0 := sender.sent;
      ghost var carried := Count(inventory, GrenadeItem);
      ghost var inv0 := inventory;
      ghost var seen := 0;
      ghost var tossed: nat := 0;
      ghost var thrown: nat := 0;
      var grenade := GrenadeMessage(self, position, direction);
      var ev := tossClip.PopEvent();
      while ev.Some?
        invariant seen <= |q0|
        invariant ev.Some? ==> seen < |q0| && ev.value == q0[seen] && tossClip.events == q0[seen + 1..]
        invariant ev.None? ==> seen == |q0| && tossClip.events == []
        invariant tossClip.enabled == old(tossClip.enabled) && tossClip.ended == old(tossClip.ended)
        invariant tossed == Occurrences(q0[..seen], TOSS_GRENADE_SIGNAL)
        invariant thrown == if tossed < carried then tossed else carried
        invariant Count(inventory, GrenadeItem) == carried - thrown
        invariant forall k :: k != GrenadeItem ==> Count(inventory, k) == Count(inv0, k)
        invariant sender.sent == s0 + Repeat(grenade, thrown)
        decreases |tossClip.events| + (if ev.Some? then 1 else 0)
      {
        if ev.value == TOSS_GRENADE_SIGNAL {
          tossed := tossed + 1;
          var tossedNow := TossOne(grenade, sender);
          if tossedNow {
            assert Repeat(grenade, thrown) + [grenade] == Repeat(grenade, thrown + 1);
            thrown := thrown + 1;
          }
        }
        OccurrencesStep(q0, seen, TOSS_GRENADE_SIGNAL);
        seen := seen + 1;
        ev := tossClip.PopEvent();
      }
      assert q0[..seen] == q0;
    }

    /** One toss signal: takes one grenade from the inventory and, when one was
        there, throws it. */
    method TossOne(grenade: Message, sender: MessageSender) returns (tossed: bool)
      modifies this`inventory, sender
      ensures tossed <==> Count(old(inventory), GrenadeItem) > 0
      ensures tossed ==> Count(inventory, GrenadeItem) == Count(old(inventory), GrenadeItem) - 1
      ensures !tossed ==> inventory == old(inventory)
      ensures forall k :: k != GrenadeItem ==> Count(inventory, k) == Count(old(inventory), k)
      ensures sender.sent == old(sender.sent) + (if tossed then [grenade] else [])
    {
      var (taken, rest) := TryExtractExact(inventory, GrenadeItem, 1);
      inventory := rest;
      tossed := taken == 1;
      if tossed {
        sender.Send(grenade);
      }
    }

    // -------------------------------------------------------------------------
    // Items and elevators

    /** `check_items`: the first item within reach, in container order, is shown
        on the item display and, while the action key is held, picked up; the
        pick-up consumes the action key. Items further on are not examined. */
    method CheckItems(self: Handle, items: seq<ItemEntry>, sender: MessageSender)
      modifies this`controller, this`itemDisplayVisible, sender
      ensures FirstItemInReach(items, 0).None? ==>
                && sender.sent == old(sender.sent)
                && controller == old(controller)
                && itemDisplayVisible == old(itemDisplayVisible)
      ensures FirstItemInReach(items, 0).Some? ==>
                var item := items[FirstItemInReach(items, 0).value];
                && sender.sent == old(sender.sent) + ItemMessages(item, self, old(controller.action))
                && controller == old(controller).(action := false)
                && itemDisplayVisible
    {
      for i := 0 to |items|
        invariant FirstItemInReach(items, i) == FirstItemInReach(items, 0)
        invariant sender.sent == old(sender.sent) && controller == old(controller)
        invariant itemDisplayVisible == old(itemDisplayVisible)
      {
        var item := items[i];
        if item.distance < REACH {
          sender.Send(ShowItemDisplay(item.kind, item.stackSize));
          if controller.action {
            sender.Send(PickUpItem(self, item.handle));
            sender.Send(SyncInventory);
            controller := controller.(action := false);
          }
          itemDisplayVisible := true;
          return;
        }
      }
    }

    /** The interaction step of `update` for a living player: the item display is
        hidden, then `check_items` and `check_elevators` run in that order. The
        display shows exactly when an item is within reach, and a pick-up
        consumes the action key before the elevators look at it, so no elevator
        is called in a frame that picks up an item. */
    method CheckSurroundings(self: Handle, items: seq<ItemEntry>, elevators: seq<ElevatorEntry>,
                             sender: MessageSender)
      modifies this`controller, this`itemDisplayVisible, sender
      ensures itemDisplayVisible <==> FirstItemInReach(items, 0).Some?
      ensures controller == old(controller).(action := old(controller.action) && FirstItemInReach(items, 0).None?)
      ensures FirstItemInReach(items, 0).None? ==>
                sender.sent == old(sender.sent) + AllElevatorMessages(elevators, |elevators|, controller)
      ensures FirstItemInReach(items, 0).Some? ==>
                var item := items[FirstItemInReach(items, 0).value];
                && sender.sent == old(sender.sent) + ItemMessages(item, self, old(controller.action))
                                  + AllElevatorMessages(elevators, |elevators|, controller)
                && forall m :: m in AllElevatorMessages(elevators, |elevators|, controller) ==> !m.CallElevator?
    {
      itemDisplayVisible := false;
      CheckItems(self, items, sender);
      CheckElevators(elevators, sender);
      ElevatorsNeedInput(elevators, |elevators|, controller);
    }

    /** The pad part of `check_elevators` for one elevator. */
    method CheckPad(e: ElevatorEntry, sender: MessageSender)
      modifies sender
      ensures sender.sent == old(sender.sent) + PadMessages(e, controller)
    {
      if e.distance < REACH && controller.action {
        var last := AsU32(SaturatingSub(e.pointCount, 1));
        if e.currentFloor == last {
          sender.Send(CallElevator(e.handle, 0));
        } else if e.currentFloor == 0 {
          sender.Send(CallElevator(e.handle, last));
        }
      }
    }

    /** The part of `check_elevators` for one call button of an elevator. */
    method CheckCallButton(e: ElevatorEntry, b: CallButtonEntry, sender: MessageSender)
      modifies sender
      ensures sender.sent == old(sender.sent) + ButtonMessages(e, b, controller)
    {
      if b.distance < REACH {
        if b.kind == FloorSelector {
          var newFloor: Option<u32>;
          if controller.cursorDown {
            newFloor := Some(SaturatingSub(b.floor, 1));
          } else if controller.cursorUp {
            var raised := SaturatingAddU32(b.floor, 1);
            var top := SaturatingSub(AsU32(e.pointCount), 1);
            newFloor := Some(if raised < top then raised else top);
          } else {
            newFloor := None;
          }
          if newFloor.Some? {
            sender.Send(SetCallButtonFloor(b.handle, newFloor.value));
          }
        }
        if controller.action {
          sender.Send(CallElevator(e.handle, b.floor));
        }
      }
    }

    /** The call-button part of `check_elevators` for one elevator: its buttons in
        order. */
    method CheckCallButtons(e: ElevatorEntry, sender: MessageSender)
      modifies sender
      ensures sender.sent == old(sender.sent) + AllButtonMessages(e, |e.callButtons|, controller)
    {
      for j := 0 to |e.callButtons|
        invariant sender.sent == old(sender.sent) + AllButtonMessages(e, j, controller)
      {
        CheckCallButton(e, e.callButtons[j], sender);
      }
    }

    /** `check_elevators`: for each elevator in container order, first its pad,
        then each of its call buttons in order. */
    method CheckElevators(elevators: seq<ElevatorEntry>, sender: MessageSender)
      modifies sender
      ensures sender.sent == old(sender.sent) + AllElevatorMessages(elevators, |elevators|, controller)
    {
      for i := 0 to |elevators|
        invariant sender.sent == old(sender.sent) + AllElevatorMessages(elevators, i, controller)
      {
        CheckElevator(elevators[i], sender);
      }
    }

    /** The part of `check_elevators` for one elevator: its pad, then its call
        buttons. */
    method CheckElevator(e: ElevatorEntry, sender: MessageSender)
      modifies sender
      ensures sender.sent == old(sender.sent) + ElevatorMessages(e, controller)
    {
      CheckPad(e, sender);
      CheckCallButtons(e, sender);
    }

    // -------------------------------------------------------------------------
    // Shooting

    /** The shooting part of `update_shooting`. With a weapon equipped: while the
        upper body is in its aim state the weapon display shows, and a held
        trigger on a ready weapon fires when the inventory holds the weapon's
        ammunition per shot, which is then taken; otherwise the display hides.
        `pool` stands for the weapon container. */
    method UpdateShooting(pool: map<Handle, Weapon>, now: real, sender: MessageSender)
      requires currentWeapon < |weapons| ==> weapons[currentWeapon] in pool
      modifies this`inventory, this`weaponDisplayVisible, sender
      ensures currentWeapon >= |weapons| ==>
                && inventory == old(inventory) && sender.sent == old(sender.sent)
                && weaponDisplayVisible == old(weaponDisplayVisible)
      ensures currentWeapon < |weapons| ==>
                var h := weapons[currentWeapon];
                var w := pool[h];
                var ammo := w.definition.ammoConsumptionPerShot;
                var fires := Aiming() && controller.shoot && w.CanShoot(now)
                             && Count(old(inventory), Ammo) >= ammo;
                && weaponDisplayVisible == Aiming()
                && (fires ==> && sender.sent == old(sender.sent) + [ShootWeapon(h, None)]
                              && Count(inventory, Ammo) == Count(old(inventory), Ammo) - ammo)
                && (!fires ==> sender.sent == old(sender.sent) && inventory == old(inventory))
      ensures forall k :: k != Ammo ==> Count(inventory, k) == Count(old(inventory), k)
    {
      if currentWeapon < |weapons| {
        var h := weapons[currentWeapon];
        var w := pool[h];
        if upperBody.activeState == upperBody.aimState {
          weaponDisplayVisible := true;
          if controller.shoot && w.CanShoot(now) {
            var ammo := w.definition.ammoConsumptionPerShot;
            var (taken, rest) := TryExtractExact(inventory, Ammo, ammo);
            inventory := rest;
            if taken == ammo {
              sender.Send(ShootWeapon(h, None));
            }
          }
        } else {
          weaponDisplayVisible := false;
        }
      }
    }

    // -------------------------------------------------------------------------
    // Locomotion

    /** The run-factor and in-air bookkeeping of `update` for a living player: the
        target is 1 while running and 0 otherwise, the run factor closes a tenth
        of the gap to it, and the in-air time accumulates until ground contact
        resets it. A dead player keeps all three. */
    method UpdateLocomotion(stunned: bool, hasGroundContact: bool, dt: real)
      modifies this`runFactor, this`targetRunFactor, this`inAirTime
      ensures IsDead() ==> runFactor == old(runFactor) && targetRunFactor == old(targetRunFactor)
                           && inAirTime == old(inAirTime)
      ensures !IsDead() ==>
                && targetRunFactor == (if IsRunning(stunned) then 1.0 else 0.0)
                && runFactor == EaseRunFactor(old(runFactor), targetRunFactor)
                && inAirTime == (if hasGroundContact then 0.0 else old(inAirTime) + dt)
      ensures !IsDead() && hasGroundContact ==> MachinesSeeGround()
    {
      if !IsDead() {
        if IsRunning(stunned) {
          targetRunFactor := 1.0;
        } else {
          targetRunFactor := 0.0;
        }
        runFactor := runFactor + (targetRunFactor - runFactor) * RUN_EASING;
        if hasGroundContact {
          inAirTime := 0.0;
        } else {
          inAirTime := inAirTime + dt;
        }
      }
    }

    /** The ground contact the two machines are told about: in the air for at
        most 0.3 s still counts as on the ground. */
    predicate MachinesSeeGround()
      reads this
    {
      inAirTime <= GROUND_CONTACT_GRACE
    }

    /** The inputs `update_animation_machines` gives the two machines, taken
        before the stun step, with the physics ground contact as a parameter.
        Both machines see the same movement, ground contact (with the in-air
        grace), run factor, death and weapon class; a jump is reported only on
        the ground with the jump flag held; only the upper body hears about a
        due stun, aiming, a grenade toss and a pending weapon change. */
    function AnimationInputs(kinds: map<Handle, WeaponKind>, hasGroundContact: bool): (r: MachineInputs)
      requires CurrentWeapon() != NONE ==> CurrentWeapon() in kinds
      reads this
      ensures && r.lower.isWalking == r.upper.isWalking
              && r.lower.isJumping == r.upper.isJumping
              && r.lower.hasGroundContact == r.upper.hasGroundContact
              && r.lower.runFactor == r.upper.runFactor
              && r.lower.isDead == r.upper.isDead
              && r.lower.weaponKind == r.upper.weaponKind
      ensures r.lower.isWalking <==> controller.walkForward || controller.walkBackward
                                     || controller.walkLeft || controller.walkRight
      ensures r.lower.isJumping <==> hasGroundContact && controller.jump
      ensures r.lower.hasGroundContact <==> inAirTime <= 0.3
      ensures !r.lower.shouldBeStunned && (r.upper.shouldBeStunned <==> lastHealth - health >= 15.0)
      ensures r.upper.changeWeapon <==> weaponChangeDirection != NoRequest
      ensures r.upper.isAiming == controller.aim && r.upper.tossGrenade == controller.tossGrenade
      ensures r.lower.weaponKind == Pistol <==> CurrentWeapon() != NONE && kinds[CurrentWeapon()] == Glock
    {
      var kind := CurrentCombatKind(kinds);
      var jumping := hasGroundContact && controller.jump;
      MachineInputs(
        LowerBodyInput(Walking(), jumping, MachinesSeeGround(), runFactor, IsDead(), false, kind),
        UpperBodyInput(Walking(), jumping, MachinesSeeGround(), controller.aim, controller.tossGrenade,
                       kind, weaponChangeDirection != NoRequest, runFactor, IsDead(), ShouldBeStunned()))
    }

    /** The speed `update_velocity` gives the walk direction: nothing while the
        lower body cannot move (falling or landing), otherwise the move speed
        scaled between one and four times by the run factor, per second of frame
        time. */
    function MoveSpeed(moveSpeed: real, dt: real): (speed: real)
      reads this
      ensures !CanMoveIn(lowerBody) ==> speed == 0.0
      ensures CanMoveIn(lowerBody) && runFactor == 0.0 ==> speed == moveSpeed * dt
      ensures CanMoveIn(lowerBody) && runFactor == 1.0 ==> speed == 4.0 * moveSpeed * dt
      ensures CanMoveIn(lowerBody) && 0.0 <= runFactor <= 1.0 && moveSpeed >= 0.0 && dt >= 0.0 ==>
                moveSpeed * dt <= speed <= 4.0 * moveSpeed * dt
    {
      if CanMove() then
        LerpSpeedBounds(moveSpeed, dt, runFactor);
        assert runFactor == 1.0 ==> 3.0 * runFactor * (moveSpeed * dt) == 3.0 * (moveSpeed * dt);
        (moveSpeed + (moveSpeed * 4.0 - moveSpeed) * runFactor) * dt
      else 0.0
    }

    // -------------------------------------------------------------------------
    // Input

    /** `process_input_event`: applies one device event. Mouse motion turns the
        view; a bound button updates its flag in the snapshot; a jump press
        restarts both jump clips when the lower one may restart; a grenade press
        restarts the toss clip while grenades are carried; the flash-light,
        inventory and journal bindings send their messages and toggle the
        displays; and a granted weapon change records the request, rewinds the
        put-back clip and disables and rewinds the grab clip. The bindings are
        matched with the aim flag and weapon-change permission as they were
        before the event. `kinds` stands for the weapon container's kind lookup;
        the five clips are distinct clips of the two machines. */
    method ProcessInputEvent(event: InputEvent, dt: real, scheme: ControlScheme,
                             kinds: map<Handle, WeaponKind>,
                             lowerJump: Clip, upperJump: Clip, tossClip: Clip,
                             grabClip: Clip, putBackClip: Clip, sender: MessageSender)
      returns (ghost act: Option<(Action, bool)>, ghost request: Option<RequiredWeapon>)
      requires CurrentWeapon() != NONE ==> CurrentWeapon() in kinds
      requires lowerJump != upperJump && lowerJump != tossClip && lowerJump != grabClip
               && lowerJump != putBackClip && upperJump != tossClip && upperJump != grabClip
               && upperJump != putBackClip && tossClip != grabClip && tossClip != putBackClip
               && grabClip != putBackClip
      modifies this`controller, this`weaponChangeDirection, this`inventoryDisplayVisible,
               this`journalDisplayVisible, lowerJump, upperJump, tossClip, grabClip, putBackClip, sender
      ensures act == EventAction(scheme, event, old(controller.aim),
                                 CanChangeWeapon(old(weaponChangeDirection), old(grabClip.ended), old(|weapons|)))
      ensures request == EventRequest(scheme, event, old(controller.aim), old(weaponChangeDirection),
                                      old(grabClip.ended), old(CurrentKind(kinds)), old(currentWeapon), old(|weapons|))
      ensures controller == NextController(old(controller), scheme, event, dt,
                                           CanChangeWeapon(old(weaponChangeDirection), old(grabClip.ended), old(|weapons|)),
                                           !old(lowerJump.enabled) || old(lowerJump.ended),
                                           old(Count(inventory, GrenadeItem) > 0))
      ensures sender.sent == old(sender.sent)
                + InputMessages(act, old(CurrentWeapon()), old(inventoryDisplayVisible), old(journalDisplayVisible))
      ensures act == Some((AimAction, true)) ==> !inventoryDisplayVisible && !journalDisplayVisible
      ensures act.Some? && act.value.0 == InventoryAction ==>
                !journalDisplayVisible && inventoryDisplayVisible == !old(inventoryDisplayVisible)
      ensures act.Some? && act.value.0 == JournalAction ==>
                !inventoryDisplayVisible && journalDisplayVisible == !old(journalDisplayVisible)
      ensures !TouchesDisplays(act) ==>
                inventoryDisplayVisible == old(inventoryDisplayVisible)
                && journalDisplayVisible == old(journalDisplayVisible)
      ensures if act == Some((JumpAction, true)) && (!old(lowerJump.enabled) || old(lowerJump.ended)) then
                lowerJump.enabled && !lowerJump.ended && upperJump.enabled && !upperJump.ended
              else
                && lowerJump.enabled == old(lowerJump.enabled) && lowerJump.ended == old(lowerJump.ended)
                && upperJump.enabled == old(upperJump.enabled) && upperJump.ended == old(upperJump.ended)
      ensures if act == Some((TossGrenadeAction, true)) && old(Count(inventory, GrenadeItem) > 0) then
                tossClip.enabled && !tossClip.ended
              else
                tossClip.enabled == old(tossClip.enabled) && tossClip.ended == old(tossClip.ended)
      ensures if request.Some? then
                && weaponChangeDirection == request.value
                && !putBackClip.ended && putBackClip.enabled == old(putBackClip.enabled)
                && !grabClip.enabled && !grabClip.ended
              else
                && weaponChangeDirection == old(weaponChangeDirection)
                && putBackClip.ended == old(putBackClip.ended) && putBackClip.enabled == old(putBackClip.enabled)
                && grabClip.ended == old(grabClip.ended) && grabClip.enabled == old(grabClip.enabled)
      ensures lowerJump.events == old(lowerJump.events) && upperJump.events == old(upperJump.events)
      ensures tossClip.events == old(tossClip.events) && grabClip.events == old(grabClip.events)
      ensures putBackClip.events == old(putBackClip.events)
    {
      var aiming := controller.aim;
      var canChange := CanChangeWeapon(weaponChangeDirection, grabClip.ended, |weapons|);
      var canJump := !lowerJump.enabled || lowerJump.ended;
      var hasGrenade := Count(inventory, GrenadeItem) > 0;
      var selected := EventAction(scheme, event, aiming, canChange);
      assert selected == EventAction(scheme, event, old(controller.aim),
                                     CanChangeWeapon(old(weaponChangeDirection), old(grabClip.ended), old(|weapons|)));
      var requested := EventRequest(scheme, event, aiming, weaponChangeDirection, grabClip.ended,
                                    CurrentKind(kinds), currentWeapon, |weapons|);
      var next := NextController(controller, scheme, event, dt, canChange, canJump, hasGrenade);
      act, request := selected, requested;
      ApplyInput(selected, requested, next, lowerJump, upperJump, tossClip, grabClip, putBackClip, sender);
    }

    /** The effects of an event once its binding, weapon request and next
        snapshot are decided: the new snapshot, the display toggles and their
        messages, the jump and toss clip restarts, and the recorded weapon
        change with its clip rewinds. */
    method ApplyInput(act: Option<(Action, bool)>, request: Option<RequiredWeapon>, next: InputController,
                      lowerJump: Clip, upperJump: Clip, tossClip: Clip,
                      grabClip: Clip, putBackClip: Clip, sender: MessageSender)
      requires lowerJump != upperJump && lowerJump != tossClip && lowerJump != grabClip
               && lowerJump != putBackClip && upperJump != tossClip && upperJump != grabClip
               && upperJump != putBackClip && tossClip != grabClip && tossClip != putBackClip
               && grabClip != putBackClip
      modifies this`controller, this`weaponChangeDirection, this`inventoryDisplayVisible,
               this`journalDisplayVisible, lowerJump, upperJump, tossClip, grabClip, putBackClip, sender
      ensures controller == next
      ensures sender.sent == old(sender.sent)
                + InputMessages(act, old(CurrentWeapon()), old(inventoryDisplayVisible), old(journalDisplayVisible))
      ensures act == Some((AimAction, true)) ==> !inventoryDisplayVisible && !journalDisplayVisible
      ensures act.Some? && act.value.0 == InventoryAction ==>
                !journalDisplayVisible && inventoryDisplayVisible == !old(inventoryDisplayVisible)
      ensures act.Some? && act.value.0 == JournalAction ==>
                !inventoryDisplayVisible && journalDisplayVisible == !old(journalDisplayVisible)
      ensures !TouchesDisplays(act) ==>
                inventoryDisplayVisible == old(inventoryDisplayVisible)
                && journalDisplayVisible == old(journalDisplayVisible)
      ensures if act == Some((JumpAction, true)) && (!old(lowerJump.enabled) || old(lowerJump.ended)) then
                lowerJump.enabled && !lowerJump.ended && upperJump.enabled && !upperJump.ended
              else
                && lowerJump.enabled == old(lowerJump.enabled) && lowerJump.ended == old(lowerJump.ended)
                && upperJump.enabled == old(upperJump.enabled) && upperJump.ended == old(upperJump.ended)
      ensures if act == Some((TossGrenadeAction, true)) && old(Count(inventory, GrenadeItem) > 0) then
                tossClip.enabled && !tossClip.ended
              else
                tossClip.enabled == old(tossClip.enabled) && tossClip.ended == old(tossClip.ended)
      ensures if request.Some? then
                && weaponChangeDirection == request.value
                && !putBackClip.ended && putBackClip.enabled == old(putBackClip.enabled)
                && !grabClip.enabled && !grabClip.ended
              else
                && weaponChangeDirection == old(weaponChangeDirection)
                && putBackClip.ended == old(putBackClip.ended) && putBackClip.enabled == old(putBackClip.enabled)
                && grabClip.ended == old(grabClip.ended) && grabClip.enabled == old(grabClip.enabled)
      ensures lowerJump.events == old(lowerJump.events) && upperJump.events == old(upperJump.events)
      ensures tossClip.events == old(tossClip.events) && grabClip.events == old(grabClip.events)
      ensures putBackClip.events == old(putBackClip.events)
    {
      controller := next;
      UpdateDisplays(act, sender);
      ApplyClipEffects(act, request, lowerJump, upperJump, tossClip, grabClip, putBackClip);
    }

    /** The clip part of an event's effects: a jump press restarts both jump clips
        when the lower one may restart, a grenade press restarts the toss clip while
        grenades are carried, and a granted weapon change records the request,
        rewinds the put-back clip and disables and rewinds the grab clip. */
    method ApplyClipEffects(act: Option<(Action, bool)>, request: Option<RequiredWeapon>,
                            lowerJump: Clip, upperJump: Clip, tossClip: Clip, grabClip: Clip, putBackClip: Clip)
      requires lowerJump != upperJump && lowerJump != tossClip && lowerJump != grabClip
               && lowerJump != putBackClip && upperJump != tossClip && upperJump != grabClip
               && upperJump != putBackClip && tossClip != grabClip && tossClip != putBackClip
               && grabClip != putBackClip
      modifies this`weaponChangeDirection, lowerJump, upperJump, tossClip, grabClip, putBackClip
      ensures if act == Some((JumpAction, true)) && (!old(lowerJump.enabled) || old(lowerJump.ended)) then
                lowerJump.enabled && !lowerJump.ended && upperJump.enabled && !upperJump.ended
              else
                && lowerJump.enabled == old(lowerJump.enabled) && lowerJump.ended == old(lowerJump.ended)
                && upperJump.enabled == old(upperJump.enabled) && upperJump.ended == old(upperJump.ended)
      ensures if act == Some((TossGrenadeAction, true)) && old(Count(inventory, GrenadeItem) > 0) then
                tossClip.enabled && !tossClip.ended
              else
                tossClip.enabled == old(tossClip.enabled) && tossClip.ended == old(tossClip.ended)
      ensures if request.Some? then
                && weaponChangeDirection == request.value
                && !putBackClip.ended && putBackClip.enabled == old(putBackClip.enabled)
                && !grabClip.enabled && !grabClip.ended
              else
                && weaponChangeDirection == old(weaponChangeDirection)
                && putBackClip.ended == old(putBackClip.ended) && putBackClip.enabled == old(putBackClip.enabled)
                && grabClip.ended == old(grabClip.ended) && grabClip.enabled == old(grabClip.enabled)
      ensures lowerJump.events == old(lowerJump.events) && upperJump.events == old(upperJump.events)
      ensures tossClip.events == old(tossClip.events) && grabClip.events == old(grabClip.events)
      ensures putBackClip.events == old(putBackClip.events)
    {
      var canJump := !lowerJump.enabled || lowerJump.ended;
      var hasGrenade := Count(inventory, GrenadeItem) > 0;
      if act == Some((JumpAction, true)) && canJump {
        lowerJump.SetEnabled(true);
        lowerJump.Rewind();
        upperJump.SetEnabled(true);
        upperJump.Rewind();
      }
      if act == Some((TossGrenadeAction, true)) && hasGrenade {
        tossClip.SetEnabled(true);
        tossClip.Rewind();
      }
      if request.Some? {
        weaponChangeDirection := request.value;
        putBackClip.Rewind();
        grabClip.SetEnabled(false);
        grabClip.Rewind();
      }
    }

    /** The display and message effects of a selected binding: aiming hides the
        inventory and journal; the inventory and journal bindings hide the other
        display and toggle their own, refreshing it when it is shown; the
        flash-light binding switches the equipped weapon's light on a press. */
    method UpdateDisplays(act: Option<(Action, bool)>, sender: MessageSender)
      modifies this`inventoryDisplayVisible, this`journalDisplayVisible, sender
      ensures sender.sent == old(sender.sent)
                + InputMessages(act, CurrentWeapon(), old(inventoryDisplayVisible), old(journalDisplayVisible))
      ensures act == Some((AimAction, true)) ==> !inventoryDisplayVisible && !journalDisplayVisible
      ensures act.Some? && act.value.0 == InventoryAction ==>
                !journalDisplayVisible && inventoryDisplayVisible == !old(inventoryDisplayVisible)
      ensures act.Some? && act.value.0 == JournalAction ==>
                !inventoryDisplayVisible && journalDisplayVisible == !old(journalDisplayVisible)
      ensures !TouchesDisplays(act) ==>
                inventoryDisplayVisible == old(inventoryDisplayVisible)
                && journalDisplayVisible == old(journalDisplayVisible)
    {
      if act.Some? {
        var (a, pressed) := act.value;
        if a == AimAction && pressed {
          inventoryDisplayVisible := false;
          journalDisplayVisible := false;
        } else if a == FlashLightAction && pressed {
          sender.Send(SwitchFlashLight(CurrentWeapon()));
        } else if a == InventoryAction {
          journalDisplayVisible := false;
          inventoryDisplayVisible := !inventoryDisplayVisible;
          if inventoryDisplayVisible {
            sender.Send(SyncInventory);
          }
        } else if a == JournalAction {
          inventoryDisplayVisible := false;
          journalDisplayVisible := !journalDisplayVisible;
          if journalDisplayVisible {
            sender.Send(SyncJournal);
          }
        }
      }
    }
  }
}
