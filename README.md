# Player controller, weapons and shot trails of Station Iapetus

This project models the core of the game's player character and weapons:

- **Hit-scan attribution.** A ray's sorted intersections decide which actor is
  hit, or whether level geometry is hit, and a shooter never hits itself.
- **Weapon timing.** The fire-rate cooldown, the muzzle-flash countdown, and the
  choice between a projectile and an instant ray when a weapon fires.
- **The player's per-frame decisions:**
  - stun after heavy damage;
  - draining the four animation signals (jump, weapon grab, put-back end,
    grenade toss);
  - picking up items;
  - calling elevators and moving floor selectors;
  - the ammunition gate in front of an aimed shot;
  - easing of the run factor;
  - the table that turns the body toward the walking direction.
- **One input event.** How a device event becomes a button press, and which
  binding of the control scheme that press selects. What the binding then
  does: it updates the input snapshot, restarts the jump or toss clips, toggles
  the inventory and journal displays, and requests a weapon change. Mouse
  motion turns yaw and a clamped pitch.
- **Shot trails.** They age, fade, and are removed once their lifetime is used
  up.

Modules:

- `Common`: handles, `Option`, vectors, the closed enumerations, and `u32`
  arithmetic.
- `Messages`: the outbound message log.
- `Inventories`: the all-or-nothing extraction the core relies on.
- `Animation`: clips with their signal queues.
- `HitScan`: `ray_hit`.
- `Weapons`: the `Weapon` object.
- `PlayerInput`: the pure input decisions.
- `Floors`: elevator floor arithmetic.
- `Players`: the `Player` object.
- `Trails`: shot trails.

How the model is built:

- **Objects with state.** Code that updates fields in place is a class with
  those fields: the weapon, the player, animation clips, the message sender
  and the trail container. Each such operation is a method, specified by pure
  functions of its old state.
- **Loops.** Every loop of the modelled code is a loop here, with its invariants:
  - the hit-box search;
  - the signal drains;
  - the item and elevator scans;
  - the trail update.
- **Scene data as inputs.** Positions, distances, the physics ray cast and the
  scene graph come in as parameters. Each message the core sends is appended
  to `MessageSender.sent`.
- **Weapon changes and fresh weapons.** The model follows the code:
  - a weapon-change request is refused while another is pending, so a later
    request does not replace it;
  - a fresh weapon counts as having fired at time 0.

## Model

| member | source | states |
|---|---|---|
| HitScan.FirstUsableFrom | game/src/weapon/mod.rs:132-133 | the found intersection is the first one at or after the start whose collider is not the ignored one; none means all remaining ones are on the ignored collider |
| HitScan.FirstBoxFrom | game/src/weapon/mod.rs:138-139 | the found hit-box is the first with the candidate's collider; none means no hit-box of the actor has it |
| HitScan.ScanFrom | game/src/weapon/mod.rs:137-168 | the actor scan ends in exactly one of three ways. (1) Attributed: the first actor in container order that is not the shooter and has a matching hit-box, on its first matching box. (2) Owner only: only the shooter's own hit-boxes matched. (3) No hit-box: no actor matched |
| HitScan.Who | game/src/weapon/mod.rs:142-146 | an actor shooter is itself, a weapon shooter is the weapon's owner, and a turret or no shooter is no actor. A weapon that is gone also resolves to no actor (see Findings) |
| HitScan.RayHit | game/src/weapon/mod.rs:104-184 | no usable intersection gives no hit. A hit carries the whole buffer and is never on the ignored collider. An actor hit never names the shooter as the struck actor, and an environment hit names neither |
| HitScan.RayHitSearch | game/src/weapon/mod.rs:104-184 | the `find` followed by the labelled nested loops with early return computes exactly the specified `ray_hit` result |
| HitScan.CandidateIsNearestUsable | game/src/weapon/mod.rs:132-133 | an empty buffer, or one with only the ignored collider, gives no hit. Any hit reports the nearest intersection not on the ignored collider, and carries the whole buffer |
| HitScan.AttributedHitIsSound | game/src/weapon/mod.rs:139-162 | an actor hit names the resolved shooter as `who`, never the shooter as the struck actor, and a hit-box that the struck actor owns on the hit collider. An environment hit names no actor and no shooter |
| HitScan.FirstNonOwnerActorWins | game/src/weapon/mod.rs:137-163 | when actor i is the first non-shooter with a matching hit-box, the hit goes to actor i, on its first matching hit-box |
| HitScan.OwnerOnlyHitIsSuppressed | game/src/weapon/mod.rs:148-151 | if only the shooter's own hit-boxes match the candidate, nothing is reported |
| HitScan.NoHitBoxMeansEnvironmentHit | game/src/weapon/mod.rs:167-180 | if no hit-box matches, the result is an environment hit on the candidate, with a NONE actor and a NONE shooter |
| HitScan.LaterIntersectionsAreNotExamined | game/src/weapon/mod.rs:132-168 | only the intersections up to the candidate decide the result: buffers agreeing on that prefix give hits that are equal under `Hit`'s equality (mod.rs:83-93), which ignores the buffer |
| HitScan.AnonymousShooterSuppressesNothing | game/src/weapon/mod.rs:142-145 | a shooter with no actor (none, a turret, or a weapon that is gone) suppresses nothing: a usable intersection always gives a hit |
| HitScan.RayHitAsWritten | game/src/weapon/mod.rs:138-145 | the source's lookup `weapons[weapon]`: it panics only for a weapon shooter that is gone, and only when the candidate lies on some actor's hit-box. Where it does not panic, it gives the same result as `RayHit`. Where it panics, `RayHit` reports a hit, unless some actor has the NONE handle |
| HitScan.StaleWeaponShooterPanics | game/src/weapon/mod.rs:145 | a shot by a weapon that is gone, whose ray meets another actor's hit-box, panics as written. The model reports the hit on that actor instead |
| Weapons.Weapon.constructor | game/src/weapon/mod.rs:210-290 | a new weapon has last shot time 0, a zero flash timer and no owner. The shot light is hidden, and the muzzle flash keeps the asset's visibility |
| Weapons.Weapon.SetOwner | game/src/weapon/mod.rs:349-351 | only the owner changes |
| Weapons.ShotSound | game/src/weapon/mod.rs:386-398 | a shot plays one of the definition's sounds at the shot position, with gain 1, roll-off 5 and radius 3. It plays nothing when the definition has no sounds |
| Weapons.Weapon.Shoot | game/src/weapon/mod.rs:373-449 | the shot time is stamped. With a muzzle flash, the flash and light show for 0.075 s. It sends the shot sound, when there is one, and then exactly the projectile or ray message of the definition, along the aim direction when one is given and the weapon's own direction otherwise. Right after the shot the weapon can fire again only if its interval is not positive |
| Weapons.Weapon.Update | game/src/weapon/mod.rs:307-311 | the flash timer drops by `dt`. A timer at or below zero hides the flash and the light, when there is a flash. Nothing else changes |
| Weapons.ShotMessage | game/src/weapon/mod.rs:431-448 | a ray weapon sends a ray from the shot position whose end is 1000 units along the direction, with the definition's damage. Any other weapon sends a projectile with zero initial velocity. Either way the weapon is named as the shooter |
| Weapons.CooldownIsMonotone | game/src/weapon/mod.rs:369-371 | once a weapon can shoot, it can shoot at every later time until it fires |
| Weapons.CooldownScenario | game/src/weapon/mod.rs:369-371 | with an interval of 0.1 s after a shot at 1.0: not ready at 1.05, ready at 1.11. A fresh weapon is not ready at 0.05, and is ready at 0.1 |
| Inventories.TryExtractExact | game/src/player/mod.rs:994-998 | either exactly n items are taken and n is returned, or fewer than n is returned and nothing is taken. The extraction succeeds exactly when n items are present, and other kinds are untouched |
| Inventories.ExtractTwice | game/src/player/mod.rs:758 | two successive extractions of a and b items both succeed exactly when a + b items are present |
| PlayerInput.ModelAngle | game/src/player/mod.rs:925-963 | the extra model turn is a multiple of 45 degrees in [-180, 180]. It is within ±45 degrees while aiming, and non-zero only while walking |
| PlayerInput.ModelAngleIsMirrorSymmetric | game/src/player/mod.rs:925-963 | exchanging left and right mirrors the turn, modulo 360, unless both are held |
| PlayerInput.ModelAngleScenarios | game/src/player/mod.rs:925-963 | aiming while walking left and back gives -45; walking left and forward without aiming gives 45; no movement gives 0 |
| PlayerInput.ButtonState | game/src/player/mod.rs:1282-1329 | key, wheel and mouse-button events give a button and its state; a key without a virtual code, mouse motion and other events give none. Mouse button ids are cut to 16 bits, and a wheel event is always a press |
| PlayerInput.ScrollIsNormalised | game/src/player/mod.rs:1293-1307 | line and pixel scrolls of the same amount press the same wheel button: down exactly when negative. A scroll is always a press |
| PlayerInput.FirstMatchFrom | game/src/player/mod.rs:1344-1457 | the found binding is the first in the chain's order whose button is pressed and whose guard holds, and every earlier binding fails |
| PlayerInput.Binding | game/src/player/mod.rs:1344-1457 | a selected binding has the button and a holding guard. There is no selection exactly when no binding matches |
| PlayerInput.AimBindingShadows | game/src/player/mod.rs:1344-1350 | the aim binding comes first in the chain, so its button always selects aiming |
| PlayerInput.BindingSelectsMatchingButton | game/src/player/mod.rs:1386-1448 | grab bindings are taken only while a weapon change is allowed. Inventory and journal bindings are taken only on a press while not aiming |
| PlayerInput.EventAction | game/src/player/mod.rs:1341-1457 | a selected binding is bound to the event's own button, with its state, and its guard holds. Mouse motion selects no binding |
| PlayerInput.WeaponRequest | game/src/player/mod.rs:1386-1413 | a request is never empty. "Next" comes only from a press of its binding while a change is allowed, and only below the last weapon. "Previous" likewise, only above the first. A specific kind comes only from its grab binding, when another kind is equipped |
| PlayerInput.WeaponRequestIsGated | game/src/player/mod.rs:1331-1414 | a request is made only with none pending, the grab clip ended and more than one weapon. "Next" is requested only below the last weapon, "previous" only above the first, and a specific kind only when the equipped weapon is of another kind |
| PlayerInput.Clamp | game/src/player/mod.rs:1320-1323 | the clamped value lies in the range. It is unchanged inside the range, and the nearer limit outside it |
| PlayerInput.Look | game/src/player/mod.rs:1312-1324 | mouse motion keeps the pitch within ±90 degrees, and changes nothing but yaw and pitch |
| PlayerInput.InversionMirrorsPitch | game/src/player/mod.rs:1315-1319 | with the inversion flag set, the pitch moves by the same amount in the other direction, when neither movement reaches a limit |
| PlayerInput.PressTouchesOneFlag | game/src/player/mod.rs:1344-1432 | a binding never changes yaw or pitch. The aim, action and shoot flags change only under their own bindings |
| PlayerInput.PressIsGuarded | game/src/player/mod.rs:1358-1432 | a jump is recorded only on a press while the clip may restart. A toss is recorded only on a press while a grenade is carried. Weapon, flash-light, inventory and journal bindings leave the snapshot as it was |
| PlayerInput.OnlyMotionLooks | game/src/player/mod.rs:1282-1329 | only mouse motion changes yaw and pitch, and it keeps the pitch in range |
| Floors.LastIndicesAgree | game/src/player/mod.rs:623 | the pad's and the selector's ways of computing the top floor agree below 2^32 points: the last point's index, or 0 with no points |
| Floors.PadCall | game/src/player/mod.rs:622-634 | the pad calls the car only from the top or bottom floor, and only to the other end |
| Floors.PadCallRoundTrip | game/src/player/mod.rs:622-634 | using the pad again from the floor it sent the car to sends it back |
| Floors.PadCallAlternates | game/src/player/mod.rs:622-634 | with at least two floors, the pad sends the car from the bottom to the top and from the top to the bottom |
| Floors.SelectFloor | game/src/player/mod.rs:646-657 | "down" takes precedence and stops at floor 0. "Up" stops at the top floor. With neither key held nothing moves |
| Floors.SelectorStaysOnValidFloors | game/src/player/mod.rs:646-657 | a selector on a valid floor stays on a valid floor |
| Floors.SelectUpThenDown | game/src/player/mod.rs:646-657 | moving up from below the top and then down returns to the start |
| Players.CombatKind | game/src/player/mod.rs:814-826 | the pistol poses are chosen exactly for a Glock |
| Players.GrabMessages | game/src/player/mod.rs:711-721 | a grab signal sends nothing without a pending request, one message otherwise, and a grab of the requested kind for a specific request |
| Players.FirstItemInReach | game/src/player/mod.rs:560-565 | the found item is the first in container order within 0.75; none means no item is within reach |
| Players.ElevatorsNeedInput | game/src/player/mod.rs:609-676 | no elevator is called without the action key, and no selector moves without a cursor key |
| Players.ButtonsNeedInput | game/src/player/mod.rs:637-673 | the same holds for the call buttons of one elevator |
| Players.SelectedFloorsAreValid | game/src/player/mod.rs:637-673 | every floor a selector is moved to is a floor of its elevator |
| Players.ButtonSelectsValidFloor | game/src/player/mod.rs:644-663 | the same holds for one selector within reach |
| Players.EaseRunFactor | game/src/player/mod.rs:1114 | the eased run factor lies strictly between the old factor and the target, unless it is already at the target, and stays in [0, 1] |
| Players.RunFactorScenario | game/src/player/mod.rs:1107-1114 | two running frames from 0 give 0.19 |
| Players.InputMessages | game/src/player/mod.rs:1379-1456 | an event sends at most one message. It sends the inventory refresh exactly when the inventory binding shows a hidden inventory, the journal refresh likewise, and the flash-light switch exactly on its press |
| Players.Player.CurrentCombatKind | game/src/player/mod.rs:814-826 | the pistol poses are chosen exactly when a Glock is equipped |
| Players.Player.Stun | game/src/player/mod.rs:832-843 | every hit-reaction clip is enabled and rewound, and the current health is recorded, so the player is no longer due for a stun |
| Players.Player.UpdateStun | game/src/player/mod.rs:884-887 | the player is stunned exactly when at least 15 health was lost since the last stun. Either way the player is not due for a stun afterwards |
| Players.Player.HandleJumpSignal | game/src/player/mod.rs:678-697 | the clip is drained. A jump signal crossed while taking off or jumping gives a vertical speed of 3·dt |
| Players.Player.HandleWeaponGrabSignal | game/src/player/mod.rs:699-726 | the clip is drained. A grab signal carries out the pending request once and clears it; without a signal, nothing changes |
| Players.Player.HandlePutBackWeaponEndSignal | game/src/player/mod.rs:728-741 | the clip is drained. A put-back-end signal enables the grab clip |
| Players.Player.HandleTossGrenadeSignal | game/src/player/mod.rs:743-769 | the clip is drained. As many grenades are thrown as there were toss signals, never more than were carried, and each thrown grenade leaves the inventory |
| Players.Player.TossOne | game/src/player/mod.rs:754-766 | one toss signal throws a grenade exactly when one is carried, and takes it from the inventory |
| Players.Player.CheckItems | game/src/player/mod.rs:553-590 | only the first item within reach is shown, and it is picked up when the action key is held; the pick-up consumes the key. With nothing within reach nothing happens |
| Players.Player.CheckSurroundings | game/src/player/mod.rs:1232-1236 | the item display shows exactly when an item is within reach. A pick-up consumes the action key before the elevators are checked, so no elevator is called in the same frame. The item messages come before the elevator messages |
| Players.Player.CheckPad | game/src/player/mod.rs:620-635 | the pad of one elevator sends its call |
| Players.Player.CheckCallButton | game/src/player/mod.rs:638-672 | one call button sends its selector move and call |
| Players.Player.CheckCallButtons | game/src/player/mod.rs:637-673 | the buttons of one elevator send their messages in order |
| Players.Player.CheckElevator | game/src/player/mod.rs:619-674 | one elevator's pad is handled first, then its buttons |
| Players.Player.CheckElevators | game/src/player/mod.rs:609-676 | the messages of all elevators are sent in container order |
| Players.Player.UpdateShooting | game/src/player/mod.rs:965-1018 | with a weapon equipped, the display shows exactly while aiming. A shot is sent, and its ammunition taken, exactly when aiming with the trigger held, the weapon ready and enough ammunition carried; otherwise the inventory is kept |
| Players.Player.UpdateLocomotion | game/src/player/mod.rs:1108-1114 | a living player's target run factor is 1 exactly while running, and the factor is eased toward it. The in-air time resets on ground contact and otherwise grows by dt, and on contact the machines see ground. A dead player keeps all three |
| Players.Player.AnimationInputs | game/src/player/mod.rs:872-923 | both machines see the same walking, jump, ground contact, run factor, death and weapon class. Walking means a movement flag is held, and a jump needs ground contact and the jump flag. Only the upper body hears of a due stun (15 health lost), aiming, a toss and a pending weapon change |
| Players.Player.MoveSpeed | game/src/player/mod.rs:799-803 | no speed while falling or landing; otherwise between one and four times the move speed per second, by the run factor: one times at factor 0, four times at factor 1 |
| Players.LerpSpeedBounds | game/src/player/mod.rs:799-803 | interpolating from a speed to four times it, by a factor in [0, 1], gives a value between the two, scaled by the frame time |
| Players.Player.ProcessInputEvent | game/src/player/mod.rs:1273-1474 | the selected binding and the weapon request are those of the chain, evaluated on the state before the event. The snapshot, messages, displays and clips change exactly as that binding and request say, and no clip's signal queue changes |
| Players.Player.ApplyInput | game/src/player/mod.rs:1341-1473 | the effects of a decided binding and request: the new snapshot, display toggles, clip restarts and the recorded request |
| Players.Player.ApplyClipEffects | game/src/player/mod.rs:1356-1473 | a jump press restarts both jump clips when the lower one may restart. A toss press restarts the toss clip while a grenade is carried. A request is recorded, the put-back clip rewound, and the grab clip disabled and rewound |
| Players.Player.UpdateDisplays | game/src/player/mod.rs:1344-1456 | aiming hides both displays. The inventory and journal bindings hide the other display, toggle their own and refresh it when shown. The flash-light press switches the equipped weapon's light |
| Trails.NewTrail | game/src/level/trail.rs:19-25 | a new trail has not aged, and is alive when its maximum is positive |
| Trails.Aged | game/src/level/trail.rs:36 | the lifetime grows by dt but never past the maximum. A trail that reaches the maximum is no longer alive |
| Trails.Fade | game/src/level/trail.rs:37 | the fade factor lies in [0, 1]. It is 0 exactly at the end of the lifetime and 1 exactly at its start |
| Trails.AgedStaysWellAged | game/src/level/trail.rs:36 | ageing keeps the lifetime between zero and the maximum |
| Trails.FadeDecreases | game/src/level/trail.rs:36-37 | a live trail fades strictly with each frame, reaching 0 exactly when it is removed |
| Trails.SurvivorsAndExpiredPartition | game/src/level/trail.rs:58-61 | every trail is either kept or has its node removed |
| Trails.SurvivorsKeepOrder | game/src/level/trail.rs:35-62 | the kept trails are exactly the aged live ones, in their old order |
| Trails.KeptIffAlive | game/src/level/trail.rs:58-61 | a trail is kept when alive after ageing, and its node is removed otherwise |
| Trails.SurvivorsStayWellAged | game/src/level/trail.rs:35-62 | a frame keeps every lifetime between zero and its maximum |
| Trails.TrailScenario | game/src/level/trail.rs:34-63 | a 0.5 s trail survives a 0.3 s frame and is removed after the next; a trail with a zero maximum is removed at once |
| Trails.ShotTrailContainer.constructor | game/src/level/trail.rs:28-31 | a new container holds no trails |
| Trails.ShotTrailContainer.Add | game/src/level/trail.rs:65-67 | the trail is appended after the existing ones |
| Trails.ShotTrailContainer.Update | game/src/level/trail.rs:34-63 | the container becomes the survivors of one frame, and the removed nodes are exactly the expired trails' nodes, in order |
| Trails.SurvivorsAfterAdd | game/src/level/trail.rs:65-67 | a trail added to the container is aged and filtered like the older ones, after them |
| Trails.SurvivorsOfPrefix | game/src/level/trail.rs:35-62 | the survivors of the first n trails depend only on those trails |

## Left out

- Rendering, sound and the physics engine are inputs or are left out:
  - distances and the sorted ray intersections are inputs;
  - not modelled: the laser sight, the recoil and camera shake, spine and model
    rotations, health cylinder, velocity integration and the rest of
    `update_velocity` beyond its speed,
    landing rewinds and the muzzle-flash texture;
  - the random choice of shot sound is the parameter `soundPick`;
  - the trail's alpha `(255 * k) as u8` and colour writes are not modelled;
    `Fade` gives `k`.
- `check_doors`, `Player::new`, `resolve` and persistence are not part of this
  model. The weapon constructor models `Weapon::new` on top of the `Default`
  values; the asset lookups become the parameters `hasMuzzleFlash` and
  `assetFlashVisible`.
- `Character::next_weapon`, `prev_weapon`, `current_weapon` and `is_dead` are
  not part of this model:
  - the first two are recorded as the messages `NextWeaponCall` and
    `PrevWeaponCall`;
  - `current_weapon` is the weapon at the index, or NONE;
  - `is_dead` is health at or below zero.
- `f32`/`f64` rounding is not modelled: times, lifetimes and angles are exact
  reals, and `MAX_PITCH` is the `f32` value of 90 degrees.
- Handle generations are not modelled: handles are plain integers.
- Weapons.Weapon.Shoot: the directions it takes stand for the normalised
  result. The normalisation `try_normalize(f32::EPSILON)` and its fallback to
  +z for a near-zero vector are not modelled, because the model has no square
  root. The 1000-unit ray length holds for a unit direction.
- Players.Player.UpdateShooting, Players.Player.AnimationInputs,
  Players.Player.ProcessInputEvent, Players.Player.CurrentCombatKind: the
  character's weapon list is assumed to hold only live weapons, so the
  equipped weapon's handle is in the container. The source indexes the
  container directly (player/mod.rs:816, 981, 1012, 1336) and would panic on a
  stale handle; that panic is not modelled.
- Trails.Fade: requires a positive maximum, because at zero the source divides
  by zero. `update` itself is modelled for every maximum.
- Players.Player.ProcessInputEvent: requires the five animation clips to be
  distinct objects, as the machines' clips are. Aliasing between them is not
  modelled.
- Players.Player.IsRunning: the lower-body machine's stun query is a
  parameter, because the machine's code is not part of this model.
- Players.Player.UpdateShooting: the weapon container is a map, and the laser
  sight and ammunition-indicator position are not modelled.
- Players.Player.HandleTossGrenadeSignal: the throw position and direction are
  read once, as parameters. The source reads them from the scene at each
  signal, but the drain does not move them.
- Animation playback and the state machines' transitions are not modelled.
  Each clip's signal queue is given.
- The selector computes the top floor as `(len as u32).saturating_sub(1)`,
  while the pad uses `len.saturating_sub(1) as u32`. The two agree below 2^32
  points (`Floors.LastIndicesAgree`); both are modelled as written.

## Findings

| source | as written | input that shows it | evidently intended | confidence | as-written member | corrected member |
|---|---|---|---|---|---|---|
| game/src/weapon/mod.rs:145 | `weapons[weapon].owner()` indexes the weapon container, which panics on a handle whose weapon is gone. The lookup runs once the candidate lies on any actor's hit-box | a ray from weapon 9, which is no longer in the container, whose nearest intersection is on actor 3's hit-box | a stale handle means the shooter is unknown for that frame; the shot is attributed as for a turret, and the game does not abort | not executed; medium, since a projectile or ray can outlive the weapon that fired it | HitScan.RayHitAsWritten, HitScan.StaleWeaponShooterPanics | HitScan.RayHit, HitScan.AnonymousShooterSuppressesNothing |
