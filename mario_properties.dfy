/**
 * Properties of the per-frame controller: the speed and facing rules, the
 * priority of the entry actions, what one frame does in each state, and the
 * invariant that keeps the jump timer from ever interrupting anything but a
 * jump.
 */
module MarioProperties {
  import opened Wrappers
  import opened MarioStates
  import opened MarioSprite

  // ---------------------------------------------------------------------
  // Direction keys

  /** With both direction keys held the sprite moves right but faces left. */
  lemma BothKeysMoveRightFaceLeft(inp: Inputs, flipX: bool)
    requires inp.left && inp.right
    ensures Speed(inp) == WalkVelocity && Facing(inp, flipX)
  {
  }

  /** After the facing pre-step, `isFlipping` holds exactly when both direction keys are held. */
  lemma FlippingNeedsBothKeys(inp: Inputs, flipX: bool)
    ensures IsFlipping(inp, Facing(inp, flipX)) <==> inp.left && inp.right
  {
  }

  /**
   * With at most one direction key held, the frame ends facing the way the
   * pre-step chose: left when left is held, right when right is held, and
   * as before when neither is.
   */
  lemma FacingAfterTick(s: Sprite, inp: Inputs, onFloor: bool)
    requires !(inp.left && inp.right)
    ensures Tick(s, inp, onFloor).flipX == Facing(inp, s.flipX)
  {
    FlippingNeedsBothKeys(inp, s.flipX);
  }

  /**
   * Walking on the floor with both direction keys held: the pre-step faces
   * left, then `flip` fires, so the frame ends facing right, moving right.
   */
  lemma BothKeysWhileWalking(s: Sprite, inp: Inputs)
    requires s.state == Walking && inp.left && inp.right && !inp.jump
    ensures var r := Tick(s, inp, true);
      r.state == Walking && !r.flipX && r.vx == WalkVelocity && r.vy == 0 && r.plays == s.plays
  {
  }

  /**
   * With both direction keys held the pre-step faces left, and `flip` then
   * turns the sprite right in exactly the situations that reach it: WALKING
   * on the floor without jump, CROUCHING with down on the floor, and
   * JUMPING or FALLING in the air. Everywhere else the frame ends facing left.
   */
  lemma BothKeysFacing(s: Sprite, inp: Inputs, onFloor: bool)
    requires inp.left && inp.right
    ensures Tick(s, inp, onFloor).flipX <==>
              !((s.state == Walking && onFloor && !inp.jump)
                || (s.state == Crouching && onFloor && inp.down)
                || ((s.state == Jumping || s.state == Falling) && !onFloor))
  {
  }

  // ---------------------------------------------------------------------
  // Priority of the entry actions

  /** On the floor, the jump key preempts walking, crouching and flipping in both grounded states. */
  lemma JumpPreempts(inp: Inputs, flipX: bool)
    requires inp.jump
    ensures Choose(Standing, inp, true, flipX) == Some(Jump)
    ensures Choose(Walking, inp, true, flipX) == Some(Jump)
  {
  }

  /** The frame enters JUMPING exactly when jump is pressed on the floor from STANDING or WALKING. */
  lemma EnterJumpingOnlyByJumpKey(s: Sprite, inp: Inputs, onFloor: bool)
    ensures var r := Tick(s, inp, onFloor);
      (r.state == Jumping && s.state != Jumping)
      <==> (inp.jump && onFloor && (s.state == Standing || s.state == Walking))
  {
  }

  // ---------------------------------------------------------------------
  // One frame, state by state

  /** A jump from STANDING: upward velocity only, the jump pose, and a fresh timer. */
  lemma JumpFromStanding(s: Sprite, inp: Inputs)
    requires s.state == Standing && inp.jump
    ensures var r := Tick(s, inp, true);
      r.state == Jumping && r.vx == 0 && r.vy == JumpVelocity
      && r.plays == s.plays + ["jump"] && r.hasJumpTimer && r.jumpTimerLive
  {
  }

  /** A jump from WALKING keeps the walking speed. */
  lemma JumpFromWalking(s: Sprite, inp: Inputs)
    requires s.state == Walking && inp.jump
    ensures var r := Tick(s, inp, true);
      r.state == Jumping && r.vx == Speed(inp) && r.vy == JumpVelocity
      && r.plays == s.plays + ["jump"] && r.hasJumpTimer && r.jumpTimerLive
  {
  }

  /**
   * STANDING without a jump on the floor: a direction key on the floor walks,
   * down on the floor crouches, leaving the floor falls; in each case the
   * frame ends with velocity (0, 0), even when a direction is held.
   */
  lemma StandingTick(s: Sprite, inp: Inputs, onFloor: bool)
    requires s.state == Standing && !(onFloor && inp.jump)
    ensures var r := Tick(s, inp, onFloor);
      r.vx == 0 && r.vy == 0
      && (onFloor && (inp.left || inp.right) ==> r.state == Walking && r.plays == s.plays + ["walk"])
      && (onFloor && !inp.left && !inp.right && inp.down ==>
            r.state == Crouching && r.plays == s.plays + ["crouch"])
      && (!onFloor ==> r.state == Falling && r.plays == s.plays + ["jump"])
      && (onFloor && !inp.left && !inp.right && !inp.down ==> r.state == Standing && r.plays == s.plays)
  {
  }

  /** Standing on the floor with no key held: only the velocity is zeroed. */
  lemma IdleStandingTick(s: Sprite)
    requires s.state == Standing
    ensures Tick(s, NoKeys, true) == s.(vx := 0, vy := 0)
  {
  }

  /** WALKING on the floor without jump: keep walking while a direction is held, else stand. */
  lemma WalkingOnFloor(s: Sprite, inp: Inputs)
    requires s.state == Walking && !inp.jump
    ensures var r := Tick(s, inp, true);
      r.vx == Speed(inp) && r.vy == 0
      && (inp.left || inp.right ==> r.state == Walking && r.plays == s.plays)
      && (!inp.left && !inp.right ==> r.state == Standing && r.plays == s.plays + ["stand"])
  {
  }

  /** WALKING off the floor falls, keeping the horizontal speed. */
  lemma WalkingOffFloor(s: Sprite, inp: Inputs)
    requires s.state == Walking
    ensures var r := Tick(s, inp, false);
      r.state == Falling && r.vx == Speed(inp) && r.vy == 0 && r.plays == s.plays + ["jump"]
  {
  }

  /** CROUCHING holds still, and stays crouched exactly while down is held on the floor. */
  lemma CrouchingTick(s: Sprite, inp: Inputs, onFloor: bool)
    requires s.state == Crouching
    ensures var r := Tick(s, inp, onFloor);
      r.vx == 0 && r.vy == 0
      && (r.state == Crouching <==> onFloor && inp.down)
      && (r.state != Crouching ==> r.state == Standing)
  {
  }

  /**
   * JUMPING and FALLING set only the horizontal speed; touching the floor
   * stands and destroys the handle's timer, and in the air the state and
   * every scheduled fall callback are kept.
   */
  lemma AirborneTick(s: Sprite, inp: Inputs, onFloor: bool)
    requires s.state == Jumping || s.state == Falling
    ensures var r := Tick(s, inp, onFloor);
      r.vx == Speed(inp) && r.vy == s.vy
      && (onFloor ==> r.state == Standing && (s.hasJumpTimer ==> !r.jumpTimerLive))
      && (!onFloor ==> r.state == s.state && r.plays == s.plays)
      && (!onFloor ==> r.hasJumpTimer == s.hasJumpTimer && r.jumpTimerLive == s.jumpTimerLive
                       && r.strayTimers == s.strayTimers)
  {
  }

  // ---------------------------------------------------------------------
  // The jump timer invariant

  /**
   * What every reachable sprite satisfies: a fall callback is scheduled,
   * under the handle, exactly while JUMPING, no callback has been
   * orphaned by an overwritten handle, and the last animation played is that
   * of the current state (nothing is played before the first state change).
   */
  predicate Coherent(s: Sprite)
  {
    (s.jumpTimerLive ==> s.hasJumpTimer && s.state == Jumping)
    && (s.state == Jumping ==> s.jumpTimerLive)
    && s.strayTimers == 0
    && (if s.plays == [] then s.state == Standing else s.plays[|s.plays| - 1] == Animation(s.state))
  }

  lemma InitialCoherent()
    ensures Coherent(Initial())
  {
  }

  /** A jump never overwrites the handle of a still scheduled callback. */
  lemma JumpNeverOverwritesLiveTimer(s: Sprite, inp: Inputs, onFloor: bool)
    requires Coherent(s)
    requires Choose(s.state, inp, onFloor, Facing(inp, s.flipX)) == Some(Jump)
    ensures !s.jumpTimerLive
  {
  }

  lemma TickKeepsCoherent(s: Sprite, inp: Inputs, onFloor: bool)
    requires Coherent(s)
    ensures Coherent(Tick(s, inp, onFloor))
  {
  }

  /** In a coherent sprite the timer only ever interrupts a jump, and turns it into a fall. */
  lemma FireTimerFromJump(s: Sprite)
    requires Coherent(s) && Pending(s)
    ensures s.state == Jumping
    ensures var r := FireTimer(s);
      r.state == Falling && !Pending(r) && Coherent(r)
  {
  }

  lemma DeliverKeepsCoherent(s: Sprite, e: Event)
    requires Coherent(s)
    ensures Coherent(Deliver(s, e))
  {
    match e
    case Frame(inp, onFloor) => TickKeepsCoherent(s, inp, onFloor);
    case TimerExpired =>
      if Pending(s) {
        FireTimerFromJump(s);
      }
  }

  lemma {:induction false} RunKeepsCoherent(s: Sprite, evs: seq<Event>)
    requires Coherent(s)
    ensures Coherent(Run(s, evs))
    decreases |evs|
  {
    if evs != [] {
      DeliverKeepsCoherent(s, evs[0]);
      RunKeepsCoherent(Deliver(s, evs[0]), evs[1..]);
    }
  }

  /**
   * In every sprite reachable from construction, a fall callback is pending
   * exactly while the sprite is JUMPING, and then exactly one is scheduled:
   * the one the handle names.
   */
  lemma PendingTimerOnlyWhileJumping(evs: seq<Event>)
    ensures var r := Run(Initial(), evs);
      (Pending(r) <==> r.state == Jumping) && (Pending(r) ==> r.jumpTimerLive) && r.strayTimers == 0
  {
    InitialCoherent();
    RunKeepsCoherent(Initial(), evs);
  }

  // ---------------------------------------------------------------------
  // Repeated idle frames

  /** `n` copies of one event. */
  function Repeat(e: Event, n: nat): (evs: seq<Event>)
    ensures |evs| == n
    ensures forall i :: 0 <= i < n ==> evs[i] == e
  {
    if n == 0 then [] else [e] + Repeat(e, n - 1)
  }

  /**
   * Standing still on the floor is a fixed point: any number of idle frames
   * change nothing and play no animation.
   */
  lemma {:induction false} IdleFramesChangeNothing(s: Sprite, n: nat)
    requires s.state == Standing && s.vx == 0 && s.vy == 0
    ensures Run(s, Repeat(Frame(NoKeys, true), n)) == s
    decreases n
  {
    if n > 0 {
      var evs := Repeat(Frame(NoKeys, true), n);
      assert evs[0] == Frame(NoKeys, true) && evs[1..] == Repeat(Frame(NoKeys, true), n - 1);
      IdleStandingTick(s);
      IdleFramesChangeNothing(s, n - 1);
    }
  }
}
