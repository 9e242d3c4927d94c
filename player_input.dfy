/** The player's input snapshot and the pure decisions made from it: how a raw
    device event becomes a button press, which binding a button selects (the
    chain of comparisons against the control scheme, in its fixed order),
    whether a weapon-change request may be made, how mouse motion moves yaw and
    the clamped pitch, and the 8-way table that turns the body toward the
    direction of movement. */
module PlayerInput {
  import opened Common

  /** The input snapshot (`InputController`). Yaw and pitch are in radians. */
  datatype InputController = InputController(
    walkForward: bool,
    walkBackward: bool,
    walkLeft: bool,
    walkRight: bool,
    jump: bool,
    yaw: real,
    pitch: real,
    aim: bool,
    tossGrenade: bool,
    shoot: bool,
    run: bool,
    action: bool,
    cursorUp: bool,
    cursorDown: bool)

  /** The pending weapon change (`RequiredWeapon`). */
  datatype RequiredWeapon = NoRequest | Next | Previous | Specific(kind: WeaponKind)

  // ---------------------------------------------------------------------------
  // Movement

  predicate IsWalking(c: InputController) {
    c.walkBackward || c.walkForward || c.walkRight || c.walkLeft
  }

  /** `calculate_model_angle`, in degrees: the extra turn of the model toward the
      walking direction. While aiming the model stays within 45 degrees of the
      aim direction. */
  function ModelAngle(c: InputController): (a: int)
    ensures a % 45 == 0 && -180 <= a <= 180
    ensures c.aim ==> -45 <= a <= 45
    ensures a != 0 ==> IsWalking(c)
  {
    if c.aim then
      if c.walkLeft then (if c.walkBackward then -45 else 45)
      else if c.walkRight then (if c.walkBackward then 45 else -45)
      else 0
    else if c.walkLeft then
      if c.walkForward then 45 else if c.walkBackward then 135 else 90
    else if c.walkRight then
      if c.walkForward then -45 else if c.walkBackward then -135 else -90
    else if c.walkBackward then 180
    else 0
  }

  /** The same snapshot with left and right exchanged. */
  function Mirror(c: InputController): InputController {
    c.(walkLeft := c.walkRight, walkRight := c.walkLeft)
  }

  /** The table is left-right symmetric: mirroring the input mirrors the turn
      (180 and -180 being the same direction), as long as left and right are not
      both held, in which case left takes precedence. */
  lemma ModelAngleIsMirrorSymmetric(c: InputController)
    requires !(c.walkLeft && c.walkRight)
    ensures (ModelAngle(Mirror(c)) + ModelAngle(c)) % 360 == 0
  {
  }

  /** Walking left while aiming and moving back turns the model by -45 degrees;
      walking left and forward without aiming by 45; no input by 0. */
  lemma ModelAngleScenarios(c: InputController)
    ensures ModelAngle(c.(aim := true, walkLeft := true, walkBackward := true)) == -45
    ensures ModelAngle(c.(aim := false, walkLeft := true, walkForward := true)) == 45
    ensures ModelAngle(c.(walkForward := false, walkBackward := false,
                          walkLeft := false, walkRight := false)) == 0
  {
  }

  // ---------------------------------------------------------------------------
  // Device events

  datatype ControlButton = Key(code: int) | Mouse(button: int) | WheelUp | WheelDown

  datatype InputEvent =
    | KeyboardInput(virtualKeycode: Option<int>, pressed: bool)
    | OtherWindowEvent
    | MouseWheelLines(lines: real)
    | MouseWheelPixels(pixels: real)
    | MouseButton(button: nat, pressed: bool)
    | MouseMotion(dx: real, dy: real)
    | OtherDeviceEvent

  /** The button an event presses or releases, if any. Scroll events of either
      granularity become a press of the wheel "up" or "down" button; mouse button
      ids are truncated to 16 bits. */
  function ButtonState(e: InputEvent): (r: Option<(ControlButton, bool)>)
    ensures r.None? <==> e.OtherWindowEvent? || e.MouseMotion? || e.OtherDeviceEvent?
                         || (e.KeyboardInput? && e.virtualKeycode.None?)
    ensures e.KeyboardInput? && e.virtualKeycode.Some? ==>
              r == Some((Key(e.virtualKeycode.value), e.pressed))
    ensures e.MouseButton? ==> && r.Some? && r.value.0.Mouse? && r.value.1 == e.pressed
                               && 0 <= r.value.0.button < 0x1_0000
                               && (e.button < 0x1_0000 ==> r.value.0.button == e.button)
    ensures e.MouseWheelLines? || e.MouseWheelPixels? ==>
              r.Some? && r.value.1 && (r.value.0 == WheelUp || r.value.0 == WheelDown)
  {
    match e
    case KeyboardInput(vk, pressed) =>
      if vk.Some? then Some((Key(vk.value), pressed)) else None
    case OtherWindowEvent => None
    case MouseWheelLines(y) => Some((if y < 0.0 then WheelDown else WheelUp, true))
    case MouseWheelPixels(y) => Some((if y < 0.0 then WheelDown else WheelUp, true))
    case MouseButton(b, pressed) => Some((Mouse(b % 0x1_0000), pressed))
    case MouseMotion(_, _) => None
    case OtherDeviceEvent => None
  }

  /** Scrolling is normalised whatever its granularity: a scroll of `y` lines
      presses the same wheel button as a scroll of `y` pixels, downward exactly
      when `y` is negative, and it is always a press. */
  lemma ScrollIsNormalised(y: real)
    ensures ButtonState(MouseWheelLines(y)) == ButtonState(MouseWheelPixels(y))
    ensures ButtonState(MouseWheelLines(y)).Some?
    ensures var (b, pressed) := ButtonState(MouseWheelLines(y)).value;
            pressed && (b == WheelDown <==> y < 0.0) && (b == WheelUp <==> y >= 0.0)
  {
  }

  // ---------------------------------------------------------------------------
  // Bindings

  datatype ControlScheme = ControlScheme(
    aim: ControlButton,
    moveForward: ControlButton,
    moveBackward: ControlButton,
    moveLeft: ControlButton,
    moveRight: ControlButton,
    jump: ControlButton,
    run: ControlButton,
    flashLight: ControlButton,
    grabAk47: ControlButton,
    grabM4: ControlButton,
    grabPlasmaGun: ControlButton,
    grabPistol: ControlButton,
    nextWeapon: ControlButton,
    prevWeapon: ControlButton,
    tossGrenade: ControlButton,
    shoot: ControlButton,
    cursorUp: ControlButton,
    cursorDown: ControlButton,
    action: ControlButton,
    inventory: ControlButton,
    journal: ControlButton,
    mouseSens: real,
    mouseYInverse: bool)

  datatype Action =
    | AimAction | MoveForward | MoveBackward | MoveLeft | MoveRight | JumpAction | RunAction
    | FlashLightAction | GrabAk47 | GrabM4 | GrabPlasmaGun | GrabPistol | NextWeapon | PrevWeapon
    | TossGrenadeAction | ShootAction | CursorUpAction | CursorDownAction | ActionKey
    | InventoryAction | JournalAction

  /** The bindings in the order the chain of comparisons tries them. */
  const BINDING_ORDER: seq<Action> := [
    AimAction, MoveForward, MoveBackward, MoveLeft, MoveRight, JumpAction, RunAction,
    FlashLightAction, GrabAk47, GrabM4, GrabPlasmaGun, GrabPistol, NextWeapon, PrevWeapon,
    TossGrenadeAction, ShootAction, CursorUpAction, CursorDownAction, ActionKey,
    InventoryAction, JournalAction]

  /** The button the scheme binds to an action. */
  function ButtonOf(s: ControlScheme, a: Action): ControlButton {
    match a
    case AimAction => s.aim
    case MoveForward => s.moveForward
    case MoveBackward => s.moveBackward
    case MoveLeft => s.moveLeft
    case MoveRight => s.moveRight
    case JumpAction => s.jump
    case RunAction => s.run
    case FlashLightAction => s.flashLight
    case GrabAk47 => s.grabAk47
    case GrabM4 => s.grabM4
    case GrabPlasmaGun => s.grabPlasmaGun
    case GrabPistol => s.grabPistol
    case NextWeapon => s.nextWeapon
    case PrevWeapon => s.prevWeapon
    case TossGrenadeAction => s.tossGrenade
    case ShootAction => s.shoot
    case CursorUpAction => s.cursorUp
    case CursorDownAction => s.cursorDown
    case ActionKey => s.action
    case InventoryAction => s.inventory
    case JournalAction => s.journal
  }

  /** The condition a binding needs besides its button: the grab bindings are
      only taken while a weapon change is allowed, and the inventory and journal
      bindings only on a press while not aiming. */
  predicate Guard(a: Action, pressed: bool, aiming: bool, canChangeWeapon: bool) {
    if a == GrabAk47 || a == GrabM4 || a == GrabPlasmaGun || a == GrabPistol then canChangeWeapon
    else if a == InventoryAction || a == JournalAction then pressed && !aiming
    else true
  }

  /** Whether the `k`-th binding in order is taken for button `b`. */
  predicate Matches(s: ControlScheme, k: nat, b: ControlButton, pressed: bool, aiming: bool,
                    canChangeWeapon: bool)
    requires k < |BINDING_ORDER|
  {
    ButtonOf(s, BINDING_ORDER[k]) == b && Guard(BINDING_ORDER[k], pressed, aiming, canChangeWeapon)
  }

  /** The index of the first binding at or after `i` taken for button `b`. */
  function FirstMatchFrom(s: ControlScheme, b: ControlButton, pressed: bool, aiming: bool,
                          canChangeWeapon: bool, i: nat): (r: Option<nat>)
    requires i <= |BINDING_ORDER|
    ensures r.Some? ==> && i <= r.value < |BINDING_ORDER|
                        && Matches(s, r.value, b, pressed, aiming, canChangeWeapon)
    ensures r.Some? ==> forall k :: i <= k < r.value ==> !Matches(s, k, b, pressed, aiming, canChangeWeapon)
    ensures r.None? ==> forall k :: i <= k < |BINDING_ORDER| ==> !Matches(s, k, b, pressed, aiming, canChangeWeapon)
    decreases |BINDING_ORDER| - i
  {
    if i == |BINDING_ORDER| then None
    else if Matches(s, i, b, pressed, aiming, canChangeWeapon) then Some(i)
    else FirstMatchFrom(s, b, pressed, aiming, canChangeWeapon, i + 1)
  }

  /** The branch of the chain a button selects: the first binding in order whose
      button it is and whose guard holds. When a guard fails the button is
      compared with the bindings further down. */
  function Binding(s: ControlScheme, b: ControlButton, pressed: bool, aiming: bool,
                   canChangeWeapon: bool): (r: Option<Action>)
    ensures r.Some? ==> ButtonOf(s, r.value) == b && Guard(r.value, pressed, aiming, canChangeWeapon)
    ensures r.None? <==> forall k :: 0 <= k < |BINDING_ORDER| ==>
                           !Matches(s, k, b, pressed, aiming, canChangeWeapon)
  {
    match FirstMatchFrom(s, b, pressed, aiming, canChangeWeapon, 0)
    case None => None
    case Some(k) => Some(BINDING_ORDER[k])
  }

  /** A binding earlier in the chain shadows a later one bound to the same
      button: the aim binding, first in the chain, always wins. */
  lemma AimBindingShadows(s: ControlScheme, pressed: bool, aiming: bool, canChangeWeapon: bool)
    ensures Binding(s, s.aim, pressed, aiming, canChangeWeapon) == Some(AimAction)
  {
    assert Matches(s, 0, s.aim, pressed, aiming, canChangeWeapon);
  }

  /** A selected binding was selected by its own button: a grab binding only
      while a weapon change is allowed, and the inventory and journal bindings
      only on a press while not aiming. */
  lemma BindingSelectsMatchingButton(s: ControlScheme, b: ControlButton, pressed: bool,
                                     aiming: bool, canChangeWeapon: bool)
    ensures var a := Binding(s, b, pressed, aiming, canChangeWeapon);
            && (a == Some(GrabAk47) ==> b == s.grabAk47 && canChangeWeapon)
            && (a == Some(GrabM4) ==> b == s.grabM4 && canChangeWeapon)
            && (a == Some(GrabPlasmaGun) ==> b == s.grabPlasmaGun && canChangeWeapon)
            && (a == Some(GrabPistol) ==> b == s.grabPistol && canChangeWeapon)
            && (a == Some(NextWeapon) ==> b == s.nextWeapon)
            && (a == Some(PrevWeapon) ==> b == s.prevWeapon)
            && (a == Some(InventoryAction) ==> b == s.inventory && pressed && !aiming)
            && (a == Some(JournalAction) ==> b == s.journal && pressed && !aiming)
  {
  }

  // ---------------------------------------------------------------------------
  // Weapon changes

  /** `can_change_weapon`: no request pending, the grab clip has ended, and there
      is more than one weapon to choose from. */
  predicate CanChangeWeapon(pending: RequiredWeapon, grabEnded: bool, weaponCount: nat) {
    pending.NoRequest? && grabEnded && weaponCount > 1
  }

  /** The kind a grab binding asks for. */
  function GrabbedKind(a: Action): Option<WeaponKind> {
    match a
    case GrabAk47 => Some(Ak47)
    case GrabM4 => Some(M4)
    case GrabPlasmaGun => Some(PlasmaRifle)
    case GrabPistol => Some(Glock)
    case _ => None
  }

  /** The weapon change a selected binding requests, if any. `currentWeapon` is the
      index of the equipped weapon among `weaponCount` weapons, `currentKind` its
      kind (None when no weapon is equipped). */
  function WeaponRequest(a: Action, pressed: bool, canChangeWeapon: bool,
                         currentKind: Option<WeaponKind>, currentWeapon: u32,
                         weaponCount: nat): (r: Option<RequiredWeapon>)
    ensures r != Some(NoRequest)
    ensures r == Some(Next) ==> a == NextWeapon && pressed && canChangeWeapon
    ensures r == Some(Next) && weaponCount <= U32_LIMIT ==> currentWeapon + 1 < weaponCount
    ensures r == Some(Previous) ==> a == PrevWeapon && pressed && canChangeWeapon && currentWeapon > 0
    ensures r.Some? && r.value.Specific? ==>
              GrabbedKind(a) == Some(r.value.kind) && currentKind.Some? && currentKind.value != r.value.kind
  {
    match a
    case NextWeapon =>
      if pressed && currentWeapon < AsU32(SaturatingSub(weaponCount, 1)) && canChangeWeapon
      then Some(Next) else None
    case PrevWeapon =>
      if pressed && currentWeapon > 0 && canChangeWeapon then Some(Previous) else None
    case _ =>
      var k := GrabbedKind(a);
      if k.Some? && currentKind.Some? && currentKind.value != k.value
      then Some(Specific(k.value)) else None
  }

  /** The binding an event selects, with the button state, if it presses or
      releases a bound button. `aiming` is the snapshot's aim flag before the
      event. */
  function EventAction(s: ControlScheme, e: InputEvent, aiming: bool, canChangeWeapon: bool)
    : (r: Option<(Action, bool)>)
    ensures e.MouseMotion? ==> r.None?
    ensures r.Some? ==> && ButtonState(e).Some? && r.value.1 == ButtonState(e).value.1
                        && ButtonOf(s, r.value.0) == ButtonState(e).value.0
                        && Guard(r.value.0, r.value.1, aiming, canChangeWeapon)
  {
    match ButtonState(e)
    case None => None
    case Some((b, pressed)) =>
      match Binding(s, b, pressed, aiming, canChangeWeapon)
      case None => None
      case Some(a) => Some((a, pressed))
  }

  /** The request an event makes, from the button it presses to the binding. */
  function EventRequest(s: ControlScheme, e: InputEvent, aiming: bool, pending: RequiredWeapon,
                        grabEnded: bool, currentKind: Option<WeaponKind>, currentWeapon: u32,
                        weaponCount: nat): Option<RequiredWeapon>
  {
    var canChange := CanChangeWeapon(pending, grabEnded, weaponCount);
    match EventAction(s, e, aiming, canChange)
    case None => None
    case Some((a, pressed)) => WeaponRequest(a, pressed, canChange, currentKind, currentWeapon, weaponCount)
  }

  /** A weapon change is requested only when none is pending, the grab clip has
      ended and there is more than one weapon; "next" only below the last weapon,
      "previous" only above the first, and a specific kind only when a weapon is
      equipped and it is of another kind. A pending request is never replaced. */
  lemma {:induction false} WeaponRequestIsGated(s: ControlScheme, e: InputEvent, aiming: bool,
                                                pending: RequiredWeapon, grabEnded: bool,
                                                currentKind: Option<WeaponKind>, currentWeapon: u32,
                                                weaponCount: nat)
    requires weaponCount <= U32_LIMIT
    ensures var r := EventRequest(s, e, aiming, pending, grabEnded, currentKind, currentWeapon, weaponCount);
            r.Some? ==>
              && pending == NoRequest && grabEnded && weaponCount > 1
              && r.value != NoRequest
              && (r.value == Next ==> currentWeapon + 1 < weaponCount)
              && (r.value == Previous ==> currentWeapon > 0)
              && (r.value.Specific? ==> currentKind.Some? && currentKind.value != r.value.kind)
  {
    var canChange := CanChangeWeapon(pending, grabEnded, weaponCount);
    var act := EventAction(s, e, aiming, canChange);
    if act.Some? {
      var (b, pressed) := ButtonState(e).value;
      assert Binding(s, b, pressed, aiming, canChange) == Some(act.value.0);
      assert Guard(act.value.0, pressed, aiming, canChange);
      assert AsU32(SaturatingSub(weaponCount, 1)) == SaturatingSub(weaponCount, 1);
    }
  }

  // ---------------------------------------------------------------------------
  // Looking around

  /** 90 degrees in radians, as `90.0f32.to_radians()` gives it. */
  const MAX_PITCH: real := 1.5707964

  /** `x.max(lo).min(hi)`. */
  function Clamp(x: real, lo: real, hi: real): (r: real)
    requires lo <= hi
    ensures lo <= r <= hi
    ensures lo <= x <= hi ==> r == x
    ensures x < lo ==> r == lo
    ensures x > hi ==> r == hi
  {
    var low := if x > lo then x else lo;
    if low < hi then low else hi
  }

  /** Mouse motion scaled by the sensitivity and the frame time: yaw turns
      freely, pitch is clamped to [-90, 90] degrees, and the vertical direction
      follows the scheme's inversion flag. Nothing else in the snapshot changes. */
  function Look(c: InputController, s: ControlScheme, dx: real, dy: real, dt: real): (r: InputController)
    ensures -MAX_PITCH <= r.pitch <= MAX_PITCH
    ensures r == c.(yaw := r.yaw, pitch := r.pitch)
  {
    var sens := s.mouseSens * dt;
    var direction := if s.mouseYInverse then -1.0 else 1.0;
    c.(yaw := c.yaw - dx * sens,
       pitch := Clamp(c.pitch + direction * dy * sens, -MAX_PITCH, MAX_PITCH))
  }

  /** Inverting the mouse mirrors the pitch movement, as long as neither movement
      reaches a limit. */
  lemma InversionMirrorsPitch(c: InputController, s: ControlScheme, dx: real, dy: real, dt: real)
    requires -MAX_PITCH <= c.pitch + dy * s.mouseSens * dt <= MAX_PITCH
    requires -MAX_PITCH <= c.pitch - dy * s.mouseSens * dt <= MAX_PITCH
    ensures Look(c, s.(mouseYInverse := false), dx, dy, dt).pitch - c.pitch
            == c.pitch - Look(c, s.(mouseYInverse := true), dx, dy, dt).pitch
  {
  }

  // ---------------------------------------------------------------------------
  // Snapshot updates from buttons

  /** The snapshot after a selected binding: each binding sets its own flag to the
      button state. A jump is recorded only when the jump clip may restart, and a
      grenade toss only while a grenade is carried. */
  function Press(c: InputController, a: Action, pressed: bool, canJump: bool,
                 hasGrenade: bool): InputController
  {
    InputController(
      walkForward := if a == MoveForward then pressed else c.walkForward,
      walkBackward := if a == MoveBackward then pressed else c.walkBackward,
      walkLeft := if a == MoveLeft then pressed else c.walkLeft,
      walkRight := if a == MoveRight then pressed else c.walkRight,
      jump := if a == JumpAction then pressed && canJump else c.jump,
      yaw := c.yaw,
      pitch := c.pitch,
      aim := if a == AimAction then pressed else c.aim,
      tossGrenade := if a == TossGrenadeAction && hasGrenade then pressed else c.tossGrenade,
      shoot := if a == ShootAction then pressed else c.shoot,
      run := if a == RunAction then pressed else c.run,
      action := if a == ActionKey then pressed else c.action,
      cursorUp := if a == CursorUpAction then pressed else c.cursorUp,
      cursorDown := if a == CursorDownAction then pressed else c.cursorDown)
  }

  /** A binding changes at most its own flag: the view angles never change, and
      only the aim, action-key and shoot bindings change their flags. */
  lemma PressTouchesOneFlag(c: InputController, a: Action, pressed: bool, canJump: bool,
                            hasGrenade: bool)
    ensures var r := Press(c, a, pressed, canJump, hasGrenade);
            && r.yaw == c.yaw && r.pitch == c.pitch
            && (a != AimAction ==> r.aim == c.aim)
            && (a != ActionKey ==> r.action == c.action)
            && (a != ShootAction ==> r.shoot == c.shoot)
  {
  }

  /** A jump is recorded only when the clip may restart and a toss only while a
      grenade is carried; a weapon, flash-light, inventory or journal binding
      leaves the snapshot unchanged. */
  lemma PressIsGuarded(c: InputController, a: Action, pressed: bool, canJump: bool,
                       hasGrenade: bool)
    ensures var r := Press(c, a, pressed, canJump, hasGrenade);
            && (r.jump && !c.jump ==> a == JumpAction && pressed && canJump)
            && (r.tossGrenade && !c.tossGrenade ==> a == TossGrenadeAction && pressed && hasGrenade)
            && ((GrabbedKind(a).Some? || a.NextWeapon? || a.PrevWeapon? || a.FlashLightAction?
                 || a.InventoryAction? || a.JournalAction?) ==> r == c)
  {
    match a
    case AimAction =>
    case MoveForward =>
    case MoveBackward =>
    case MoveLeft =>
    case MoveRight =>
    case JumpAction =>
    case RunAction =>
    case FlashLightAction =>
    case GrabAk47 =>
    case GrabM4 =>
    case GrabPlasmaGun =>
    case GrabPistol =>
    case NextWeapon =>
    case PrevWeapon =>
    case TossGrenadeAction =>
    case ShootAction =>
    case CursorUpAction =>
    case CursorDownAction =>
    case ActionKey =>
    case InventoryAction =>
    case JournalAction =>
  }

  /** The snapshot after an event: mouse motion looks around, a bound button
      updates its flag, anything else leaves the snapshot as it was. */
  function NextController(c: InputController, s: ControlScheme, e: InputEvent, dt: real,
                          canChangeWeapon: bool, canJump: bool, hasGrenade: bool): InputController
  {
    if e.MouseMotion? then Look(c, s, e.dx, e.dy, dt)
    else match EventAction(s, e, c.aim, canChangeWeapon)
      case None => c
      case Some((a, pressed)) => Press(c, a, pressed, canJump, hasGrenade)
  }

  /** Only mouse motion changes where the player looks, and it keeps the pitch
      within [-90, 90] degrees; a button event keeps yaw and pitch. */
  lemma {:induction false} OnlyMotionLooks(c: InputController, s: ControlScheme, e: InputEvent, dt: real,
                                           canChangeWeapon: bool, canJump: bool, hasGrenade: bool)
    ensures var r := NextController(c, s, e, dt, canChangeWeapon, canJump, hasGrenade);
            && (!e.MouseMotion? ==> r.yaw == c.yaw && r.pitch == c.pitch)
            && (e.MouseMotion? ==> -MAX_PITCH <= r.pitch <= MAX_PITCH
                                   && r == c.(yaw := r.yaw, pitch := r.pitch))
  {
    if !e.MouseMotion? {
      match EventAction(s, e, c.aim, canChangeWeapon)
      case None =>
      case Some((a, pressed)) => PressTouchesOneFlag(c, a, pressed, canJump, hasGrenade);
    }
  }
}
