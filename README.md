# Mario sprite controller, modelled in Dafny

This project models the character controller of a Phaser platformer sprite
(`MarioSprite`): once per rendered frame, `preUpdate` reads four keys
(left, right, jump, down) and the physics body's floor contact, computes a
horizontal speed, turns the sprite to face the held direction, and — by a
switch on the sprite's state (STANDING, WALKING, CROUCHING, JUMPING,
FALLING) — sets the body's velocity and fires at most one entry action.
The entry actions set the state, play an animation, and for a jump set the
vertical velocity and schedule a 500 ms callback that runs the `fall`
action; entering STANDING destroys that callback.

Files:

- `wrappers.dfy` — module `Wrappers`, the `Option` type.
- `mario_states.dfy` — module `MarioStates`, the closed state set and the
  numeric codes the source stores in the `state` field.
- `mario_sprite.dfy` — module `MarioSprite`: the `check` predicates, the
  speed and facing rules, the choice of entry action (`Choose`), the entry
  actions (`Perform`), one frame (`Tick`), the timer callback
  (`FireTimer`), runs of events (`Run`), and the class `Mario` whose fields
  are updated in place by `PreUpdate`, `FireJumpTimer` and one method per
  entry action, each proved equal to the value-level function.
- `mario_properties.dfy` — module `MarioProperties`: what one frame does in
  each state, the priority of the actions, the direction-key asymmetry, the
  invariant `Coherent` (a jump timer is pending exactly while JUMPING, no callback is
  ever orphaned by an overwritten handle, the last animation played is that
  of the current state), its preservation by every event, and the
  idempotence of idle frames.

Modelling choices:

- Inputs and `onFloor` are parameters of a frame; keyboard polling and the
  physics query are not modelled.
- The animation player is modelled as the log `plays` of keys passed to
  `play`.
- The timer is modelled by three fields: `hasJumpTimer` (the `jumpTimer`
  field holds a handle; the source never clears it), `jumpTimerLive` (the
  event that handle names is still scheduled) and `strayTimers` (callbacks
  still scheduled whose handle a later jump overwrote). Destroying an
  already fired or destroyed event changes nothing. When several callbacks
  are scheduled, the oldest fires first. Elapsed time is replaced by an
  explicit `TimerExpired` event.
- Initial state: the constructor never calls `setState`; the sprite starts
  in the engine's default state 0, which is STANDING, with `flipX` false,
  zero velocity, no timer and nothing played.

Behaviour of src/js/MarioSprite.js worth noting:

- With both direction keys held the speed is +128 (right wins, line 132),
  while the facing pre-step faces left (left wins, line 135).
- When the jump timer fires, `fall` calls `play('jump')`, the same key the
  jump already played, so the model records a second play of 'jump'.
- In STANDING the `flip` branch can never fire: `isFlipping` needs a
  direction key, and on the floor a direction key already makes
  `isWalking` true; off the floor `fall` fires first. `Choose` states this
  and `Mario.PreUpdate` asserts the branch dead.
- A second jump never overwrites the handle of a timer that is still
  scheduled: a live timer exists only while JUMPING, and a jump fires only
  from STANDING or WALKING (`JumpNeverOverwritesLiveTimer`,
  `PendingTimerOnlyWhileJumping`). So no stale fall callback can interrupt
  a later state.

## Model

| member | source | states |
|---|---|---|
| MarioStates.Code | src/js/MarioStates.js:6-12 | each state has its numeric code below 5, and decoding that code gives the state back |
| MarioStates.FromCode | src/js/MarioStates.js:6-12 | exactly the numbers 0 to 4 denote a state |
| MarioStates.CodeRoundTrip | src/js/MarioStates.js:6-12 | every valid code decodes to a state whose code is that number |
| MarioStates.DefaultStateIsStanding | src/js/MarioStates.js:7 | the engine's default state 0 is STANDING |
| MarioSprite.Animation | src/js/MarioSprite.js:78-106 | the key each state's entry action plays: 'stand', 'walk', 'crouch', and 'jump' exactly for JUMPING and FALLING |
| MarioSprite.IsWalking | src/js/MarioSprite.js:114 | walking is asked for only on the floor with a direction held, that is with a non-zero speed |
| MarioSprite.IsJumping | src/js/MarioSprite.js:115 | jumping is asked for only on the floor |
| MarioSprite.IsCrouching | src/js/MarioSprite.js:116 | crouching is asked for only on the floor |
| MarioSprite.IsFlipping | src/js/MarioSprite.js:117 | flipping is asked for only when a direction key is held |
| MarioSprite.Speed | src/js/MarioSprite.js:131-132 | the speed is 0 or ±128; positive exactly when right is held, negative exactly when only left is held |
| MarioSprite.Facing | src/js/MarioSprite.js:134-135 | left held faces left; otherwise right held faces right; otherwise facing is unchanged |
| MarioSprite.Choose | src/js/MarioSprite.js:137-194 | characterises, per action, exactly when the switch fires it: jump only from STANDING/WALKING on the floor with jump held, walk only from STANDING, crouch only from STANDING with no other key, fall only from STANDING/WALKING off the floor, stand from WALKING with no key, CROUCHING without floor+down, or JUMPING/FALLING on the floor, flip only when isFlipping in the listed situations (never in STANDING) |
| MarioSprite.Perform | src/js/MarioSprite.js:78-110 | jump enters JUMPING, sets vy to -256 and schedules a live timer under the handle, leaving any callback the handle named still scheduled (one more stray callback); walk, crouch and fall enter WALKING, CROUCHING and FALLING; stand enters STANDING and destroys the handle's timer if there is a handle; each of these plays the entered state's animation; flip only toggles flipX; walk, crouch, fall and flip leave the timer alone, and no action touches vx |
| MarioSprite.Tick | src/js/MarioSprite.js:128-195 | a frame plays an animation exactly when it changes the state, at most one, and it is the new state's animation |
| MarioSprite.FireTimer | src/js/MarioSprite.js:83-86 | the callback uses up one scheduled event, the oldest first (a stray one before the handle's), and enters FALLING, playing 'jump', leaving velocity, facing and the handle alone |
| MarioSprite.Initial | src/js/MarioSprite.js:19-40 | the constructed sprite is in the state with code 0, has no scheduled timer and has played nothing |
| MarioSprite.Mario.constructor | src/js/MarioSprite.js:19-40 | the fields start as `Initial` |
| MarioSprite.Mario.DoJump | src/js/MarioSprite.js:79-87 | the fields change as `Perform` of jump says |
| MarioSprite.Mario.DoWalk | src/js/MarioSprite.js:88-91 | the fields change as `Perform` of walk says |
| MarioSprite.Mario.DoCrouch | src/js/MarioSprite.js:92-95 | the fields change as `Perform` of crouch says |
| MarioSprite.Mario.DoFall | src/js/MarioSprite.js:96-99 | the fields change as `Perform` of fall says |
| MarioSprite.Mario.DoStand | src/js/MarioSprite.js:100-106 | the fields change as `Perform` of stand says |
| MarioSprite.Mario.DoFlip | src/js/MarioSprite.js:107-109 | the fields change as `Perform` of flip says |
| MarioSprite.Mario.PreUpdate | src/js/MarioSprite.js:128-195 | the in-place frame leaves the fields equal to `Tick` of the old fields |
| MarioSprite.Mario.FireJumpTimer | src/js/MarioSprite.js:83-86 | the in-place callback leaves the fields equal to `FireTimer` of the old fields |
| MarioProperties.BothKeysMoveRightFaceLeft | src/js/MarioSprite.js:132-135 | with both direction keys the speed is +128 and the facing is left |
| MarioProperties.FlippingNeedsBothKeys | src/js/MarioSprite.js:117 | after the facing pre-step, isFlipping holds exactly when both direction keys are held |
| MarioProperties.FacingAfterTick | src/js/MarioSprite.js:135 | with at most one direction key, the frame ends facing as the pre-step chose |
| MarioProperties.BothKeysWhileWalking | src/js/MarioSprite.js:158-170 | walking on the floor with both keys and no jump stays WALKING at +128 and ends facing right, playing nothing |
| MarioProperties.BothKeysFacing | src/js/MarioSprite.js:135-193 | with both direction keys held the frame ends facing right exactly in WALKING on the floor without jump, CROUCHING with down on the floor, and JUMPING/FALLING in the air (where flip fires), and facing left otherwise |
| MarioProperties.JumpPreempts | src/js/MarioSprite.js:141-170 | on the floor with jump held, STANDING and WALKING both fire jump |
| MarioProperties.EnterJumpingOnlyByJumpKey | src/js/MarioSprite.js:144-162 | a frame enters JUMPING if and only if jump is held on the floor in STANDING or WALKING |
| MarioProperties.JumpFromStanding | src/js/MarioSprite.js:142-145 | a jump from STANDING gives velocity (0, -256), plays 'jump' and schedules a live timer |
| MarioProperties.JumpFromWalking | src/js/MarioSprite.js:159-162 | a jump from WALKING gives velocity (speed, -256), plays 'jump' and schedules a live timer |
| MarioProperties.StandingTick | src/js/MarioSprite.js:141-155 | STANDING without a jump on the floor: a direction key on the floor enters WALKING playing 'walk', down alone enters CROUCHING playing 'crouch', off the floor enters FALLING playing 'jump', otherwise nothing changes; the velocity ends (0, 0) in every case |
| MarioProperties.IdleStandingTick | src/js/MarioSprite.js:141-155 | STANDING on the floor with no key only zeroes the velocity |
| MarioProperties.WalkingOnFloor | src/js/MarioSprite.js:158-170 | WALKING on the floor without jump: velocity (speed, 0); stays WALKING with a direction held, enters STANDING playing 'stand' otherwise |
| MarioProperties.WalkingOffFloor | src/js/MarioSprite.js:158-164 | WALKING off the floor enters FALLING with velocity (speed, 0), playing 'jump' |
| MarioProperties.CrouchingTick | src/js/MarioSprite.js:173-181 | CROUCHING keeps velocity (0, 0), stays CROUCHING if and only if down is held on the floor, and otherwise enters STANDING |
| MarioProperties.AirborneTick | src/js/MarioSprite.js:184-193 | JUMPING/FALLING set only vx to the speed; on the floor they enter STANDING and destroy the handle's timer; in the air they keep their state, play nothing and leave every scheduled fall callback and the handle as they were |
| MarioProperties.InitialCoherent | src/js/MarioSprite.js:19-40 | the constructed sprite satisfies the timer and animation invariant |
| MarioProperties.JumpNeverOverwritesLiveTimer | src/js/MarioSprite.js:83 | in a coherent sprite, a frame that fires jump finds no live timer to overwrite |
| MarioProperties.TickKeepsCoherent | src/js/MarioSprite.js:128-195 | every frame preserves the invariant |
| MarioProperties.FireTimerFromJump | src/js/MarioSprite.js:83-86 | in a coherent sprite a pending timer means JUMPING, and firing it enters FALLING with nothing left pending |
| MarioProperties.DeliverKeepsCoherent | src/js/MarioSprite.js:83-86 | every frame or timer event preserves the invariant |
| MarioProperties.RunKeepsCoherent | src/js/MarioSprite.js:128-195 | any run of events from a coherent sprite stays coherent |
| MarioProperties.PendingTimerOnlyWhileJumping | src/js/MarioSprite.js:79-106 | in every sprite reachable from construction, a fall callback is pending if and only if the sprite is JUMPING, and then it is exactly the handle's timer |
| MarioProperties.IdleFramesChangeNothing | src/js/MarioSprite.js:141-155 | any number of idle frames on the floor leave a still, STANDING sprite unchanged and play nothing |

## Left out

- Engine wiring in the constructor (adding the sprite to the scene, enabling physics, body size and offset, world-bound collision): foreign calls with no logic.
- Animation definitions (frame ranges, frame rates, repetition): engine configuration; an animation is modelled only as the key passed to `play`.
- Real time: the `time` and `delta` parameters and the 500 ms delay; the timer is an explicit `TimerExpired` event.
- Gravity and physics integration: while JUMPING or FALLING the model leaves `vy` as it was; how `onFloor` is computed is not modelled, it is an input.
- `MarioInputs` (keyboard polling) is not part of this model; the keys are a record of four booleans.
- Rendering effects of `setFlipX` beyond the boolean, and the engine's own `super.preUpdate`.
- The numeric `state` field: the model stores the state as the `State` datatype, so a state outside the five codes cannot arise; the codes are kept only in `MarioStates.Code`.
