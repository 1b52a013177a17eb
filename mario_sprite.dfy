/**
 * The per-frame controller of the Mario sprite (src/js/MarioSprite.js).
 *
 * The first half is a value-level description of one frame: the `check`
 * predicates, the horizontal speed, the facing pre-step, the choice of at
 * most one entry action, the entry actions themselves and the delayed
 * callback of the jump timer. The second half is the class `Mario`, whose
 * fields are updated in place step by step as the source does, and whose
 * methods are proved to agree with the value-level description.
 */
module MarioSprite {
  import opened Wrappers
  import opened MarioStates

  /** Tuning constants stored with setData at construction. */
  const JumpVelocity: int := -256
  const WalkVelocity: int := 128

  /** One frame's snapshot of the four keys the sprite polls. */
  datatype Inputs = Inputs(left: bool, right: bool, jump: bool, down: bool)

  const NoKeys := Inputs(false, false, false, false)

  /** The entry actions of the sprite (the `actions` object). */
  datatype Action = Jump | Walk | Crouch | Fall | Stand | Flip

  /**
   * Everything a frame reads or writes:
   *  - state, flipX: the game object's state tag and horizontal mirroring;
   *  - vx, vy: the physics body's velocity;
   *  - hasJumpTimer: the `jumpTimer` field holds a handle (it is never cleared);
   *  - jumpTimerLive: the event that handle names is still scheduled;
   *  - strayTimers: fall callbacks still scheduled whose handle a later jump overwrote;
   *  - plays: the animation keys passed to `play`, oldest first.
   */
  datatype Sprite = Sprite(
    state: State,
    flipX: bool,
    vx: int,
    vy: int,
    hasJumpTimer: bool,
    jumpTimerLive: bool,
    strayTimers: nat,
    plays: seq<string>)

  /** The animation key that entering each state plays; the airborne states share the jump pose. */
  function Animation(st: State): (key: string)
    ensures key in {"stand", "walk", "crouch", "jump"}
    ensures key == "jump" <==> st == Jumping || st == Falling
  {
    match st
    case Standing => "stand"
    case Walking => "walk"
    case Crouching => "crouch"
    case Jumping => "jump"
    case Falling => "jump"
  }

  // The `check` predicates. `isOnFloor` is the physics query itself and
  // appears as the `onFloor` input.

  predicate IsWalking(inp: Inputs, onFloor: bool)
    ensures IsWalking(inp, onFloor) ==> onFloor && Speed(inp) != 0
  {
    onFloor && (inp.left || inp.right)
  }

  predicate IsJumping(inp: Inputs, onFloor: bool)
    ensures IsJumping(inp, onFloor) ==> onFloor
  {
    onFloor && inp.jump
  }

  predicate IsCrouching(inp: Inputs, onFloor: bool)
    ensures IsCrouching(inp, onFloor) ==> onFloor
  {
    onFloor && inp.down
  }

  /** Flipping is asked for only by a held direction key: never with no direction held. */
  predicate IsFlipping(inp: Inputs, flipX: bool)
    ensures IsFlipping(inp, flipX) ==> inp.left || inp.right
  {
    (inp.left && !flipX) || (inp.right && flipX)
  }

  /** Horizontal speed of the frame: right wins when both direction keys are held. */
  function Speed(inp: Inputs): (v: int)
    ensures v == 0 || v == WalkVelocity || v == -WalkVelocity
    ensures v > 0 <==> inp.right
    ensures v < 0 <==> inp.left && !inp.right
  {
    (if inp.right then 1 else if inp.left then -1 else 0) * WalkVelocity
  }

  /** The facing pre-step: left wins when both direction keys are held. */
  function Facing(inp: Inputs, flipX: bool): (f: bool)
    ensures inp.left ==> f
    ensures !inp.left && inp.right ==> !f
    ensures !inp.left && !inp.right ==> f == flipX
  {
    if inp.left then true else if inp.right then false else flipX
  }

  /**
   * The action the switch on `state` fires, if any, given the facing after
   * the pre-step. The ensures clauses describe each action by the
   * situations that fire it, independently of the priority chains.
   */
  function Choose(state: State, inp: Inputs, onFloor: bool, flipX: bool): (r: Option<Action>)
    ensures r == Some(Jump) <==> (state == Standing || state == Walking) && IsJumping(inp, onFloor)
    ensures r == Some(Walk) <==> state == Standing && IsWalking(inp, onFloor) && !inp.jump
    ensures r == Some(Crouch) <==>
              state == Standing && IsCrouching(inp, onFloor) && !inp.jump && !inp.left && !inp.right
    ensures r == Some(Fall) <==> (state == Standing || state == Walking) && !onFloor
    ensures r == Some(Stand) <==>
              (state == Walking && onFloor && !inp.jump && !inp.left && !inp.right)
              || (state == Crouching && !IsCrouching(inp, onFloor))
              || ((state == Jumping || state == Falling) && onFloor)
    ensures r == Some(Flip) <==>
              IsFlipping(inp, flipX)
              && ((state == Walking && onFloor && !inp.jump)
                  || (state == Crouching && IsCrouching(inp, onFloor))
                  || ((state == Jumping || state == Falling) && !onFloor))
  {
    match state
    case Standing =>
      if IsJumping(inp, onFloor) then Some(Jump)
      else if IsWalking(inp, onFloor) then Some(Walk)
      else if IsCrouching(inp, onFloor) then Some(Crouch)
      else if !onFloor then Some(Fall)
      else if IsFlipping(inp, flipX) then Some(Flip)
      else None
    case Walking =>
      if IsJumping(inp, onFloor) then Some(Jump)
      else if !onFloor then Some(Fall)
      else if !IsWalking(inp, onFloor) then Some(Stand)
      else if IsFlipping(inp, flipX) then Some(Flip)
      else None
    case Crouching =>
      if !IsCrouching(inp, onFloor) then Some(Stand)
      else if IsFlipping(inp, flipX) then Some(Flip)
      else None
    case Falling | Jumping =>
      if onFloor then Some(Stand)
      else if IsFlipping(inp, flipX) then Some(Flip)
      else None
  }

  /**
   * One entry action. Every action but `flip` sets the state and plays the
   * animation of the state it enters; `jump` also sets the vertical
   * velocity and schedules a new fall callback (overwriting the handle);
   * `stand` destroys whatever the handle names.
   */
  function Perform(s: Sprite, a: Action): (r: Sprite)
    ensures r.vx == s.vx
    ensures a == Flip <==> r.plays == s.plays
    ensures a == Flip ==> r.state == s.state && r.flipX != s.flipX
    ensures a != Flip ==> r.flipX == s.flipX && r.plays == s.plays + [Animation(r.state)]
    ensures a == Jump ==> r.state == Jumping && r.vy == JumpVelocity && r.hasJumpTimer && r.jumpTimerLive
    ensures a == Jump ==> r.strayTimers == s.strayTimers + (if s.jumpTimerLive then 1 else 0)
    ensures a != Jump ==> r.vy == s.vy && r.strayTimers == s.strayTimers
    ensures a == Stand ==> r.state == Standing && (s.hasJumpTimer ==> !r.jumpTimerLive)
    ensures a == Walk ==> r.state == Walking
    ensures a == Crouch ==> r.state == Crouching
    ensures a == Fall ==> r.state == Falling
    ensures a != Jump && a != Stand ==> r.hasJumpTimer == s.hasJumpTimer && r.jumpTimerLive == s.jumpTimerLive
    ensures a == Stand ==> r.hasJumpTimer == s.hasJumpTimer && (!s.hasJumpTimer ==> r.jumpTimerLive == s.jumpTimerLive)
  {
    match a
    case Jump =>
      s.(state := Jumping, plays := s.plays + ["jump"], vy := JumpVelocity,
         strayTimers := if s.jumpTimerLive then s.strayTimers + 1 else s.strayTimers,
         hasJumpTimer := true, jumpTimerLive := true)
    case Walk => s.(state := Walking, plays := s.plays + ["walk"])
    case Crouch => s.(state := Crouching, plays := s.plays + ["crouch"])
    case Fall => s.(state := Falling, plays := s.plays + ["jump"])
    case Stand =>
      s.(state := Standing, plays := s.plays + ["stand"],
         jumpTimerLive := if s.hasJumpTimer then false else s.jumpTimerLive)
    case Flip => s.(flipX := !s.flipX)
  }

  /**
   * One call of `preUpdate`: speed, facing, the velocity the current state
   * sets, then at most one entry action. A play call happens exactly when
   * the state changes, and it plays the animation of the new state.
   */
  function Tick(s: Sprite, inp: Inputs, onFloor: bool): (r: Sprite)
    ensures r.plays == s.plays <==> r.state == s.state
    ensures r.plays != s.plays ==> r.plays == s.plays + [Animation(r.state)]
  {
    var velocityX := Speed(inp);
    var faced := s.(flipX := Facing(inp, s.flipX));
    var moved :=
      match s.state
      case Standing => faced.(vx := 0, vy := 0)
      case Walking => faced.(vx := velocityX, vy := 0)
      case Crouching => faced.(vx := 0, vy := 0)
      case Falling | Jumping => faced.(vx := velocityX);
    match Choose(s.state, inp, onFloor, faced.flipX)
    case None => moved
    case Some(a) => Perform(moved, a)
  }

  /** Some fall callback is still scheduled. */
  predicate Pending(s: Sprite)
  {
    s.jumpTimerLive || s.strayTimers > 0
  }

  /**
   * The scheduler runs the oldest scheduled fall callback: that event is
   * used up and the `fall` action runs, whatever the state is.
   */
  function FireTimer(s: Sprite): (r: Sprite)
    requires Pending(s)
    ensures r.state == Falling && r.plays == s.plays + ["jump"]
    ensures r.vx == s.vx && r.vy == s.vy && r.flipX == s.flipX
    ensures r.hasJumpTimer == s.hasJumpTimer
    ensures s.strayTimers > 0 ==> r.strayTimers == s.strayTimers - 1 && r.jumpTimerLive == s.jumpTimerLive
    ensures (if s.jumpTimerLive then 1 else 0) + s.strayTimers
            == (if r.jumpTimerLive then 1 else 0) + r.strayTimers + 1
  {
    var used :=
      if s.strayTimers > 0 then s.(strayTimers := s.strayTimers - 1)
      else s.(jumpTimerLive := false);
    Perform(used, Fall)
  }

  /** The sprite as its constructor leaves it: engine defaults, no timer, nothing played. */
  function Initial(): (r: Sprite)
    ensures Some(r.state) == FromCode(0)
    ensures !Pending(r) && r.plays == []
  {
    Sprite(Standing, false, 0, 0, false, false, 0, [])
  }

  /** What the engine can deliver to the sprite: a frame, or a jump timer expiring. */
  datatype Event = Frame(inp: Inputs, onFloor: bool) | TimerExpired

  /** One event; a timer event when nothing is scheduled cannot occur and changes nothing. */
  function Deliver(s: Sprite, e: Event): Sprite
  {
    match e
    case Frame(inp, onFloor) => Tick(s, inp, onFloor)
    case TimerExpired => if Pending(s) then FireTimer(s) else s
  }

  /** A run of events, in order. */
  function Run(s: Sprite, evs: seq<Event>): Sprite
    decreases |evs|
  {
    if evs == [] then s else Run(Deliver(s, evs[0]), evs[1..])
  }

  /** The sprite as it lives in the scene, updated in place. */
  class Mario {
    var state: State
    var flipX: bool
    var vx: int
    var vy: int
    var hasJumpTimer: bool
    var jumpTimerLive: bool
    var strayTimers: nat
    var plays: seq<string>

    /** The fields as one value. */
    function Model(): Sprite
      reads this
    {
      Sprite(state, flipX, vx, vy, hasJumpTimer, jumpTimerLive, strayTimers, plays)
    }

    /** The constructor never calls setState: the state is the engine's default 0. */
    constructor ()
      ensures Model() == Initial()
    {
      state := Standing;
      flipX := false;
      vx, vy := 0, 0;
      hasJumpTimer, jumpTimerLive, strayTimers := false, false, 0;
      plays := [];
    }

    method DoJump()
      modifies this
      ensures Model() == Perform(old(Model()), Jump)
    {
      state := Jumping;
      plays := plays + ["jump"];
      vy := JumpVelocity;
      if jumpTimerLive {
        strayTimers := strayTimers + 1;
      }
      hasJumpTimer, jumpTimerLive := true, true;
    }

    method DoWalk()
      modifies this
      ensures Model() == Perform(old(Model()), Walk)
    {
      state := Walking;
      plays := plays + ["walk"];
    }

    method DoCrouch()
      modifies this
      ensures Model() == Perform(old(Model()), Crouch)
    {
      state := Crouching;
      plays := plays + ["crouch"];
    }

    method DoFall()
      modifies this
      ensures Model() == Perform(old(Model()), Fall)
    {
      state := Falling;
      plays := plays + ["jump"];
    }

    method DoStand()
      modifies this
      ensures Model() == Perform(old(Model()), Stand)
    {
      state := Standing;
      plays := plays + ["stand"];
      if hasJumpTimer {
        jumpTimerLive := false;
      }
    }

    method DoFlip()
      modifies this
      ensures Model() == Perform(old(Model()), Flip)
    {
      flipX := !flipX;
    }

    /** One frame of `preUpdate`. */
    method PreUpdate(inp: Inputs, onFloor: bool)
      modifies this
      ensures Model() == Tick(old(Model()), inp, onFloor)
    {
      var velocityX := Speed(inp);
      flipX := Facing(inp, flipX);
      match state {
        case Standing =>
          vx, vy := 0, 0;
          if IsJumping(inp, onFloor) {
            DoJump();
          } else if IsWalking(inp, onFloor) {
            DoWalk();
          } else if IsCrouching(inp, onFloor) {
            DoCrouch();
          } else if !onFloor {
            DoFall();
          } else if IsFlipping(inp, flipX) {
            // The source calls `flip` here, but this branch is dead: a held
            // direction key on the floor already made isWalking true.
            assert false;
          }
        case Walking =>
          vx, vy := velocityX, 0;
          if IsJumping(inp, onFloor) {
            DoJump();
          } else if !onFloor {
            DoFall();
          } else if !IsWalking(inp, onFloor) {
            DoStand();
          } else if IsFlipping(inp, flipX) {
            DoFlip();
          }
        case Crouching =>
          vx, vy := 0, 0;
          if !IsCrouching(inp, onFloor) {
            DoStand();
          } else if IsFlipping(inp, flipX) {
            DoFlip();
          }
        case Falling | Jumping =>
          vx := velocityX;
          if onFloor {
            DoStand();
          } else if IsFlipping(inp, flipX) {
            DoFlip();
          }
      }
    }

    /** The scheduler runs a fall callback of an earlier jump. */
    method FireJumpTimer()
      requires Pending(Model())
      modifies this
      ensures Model() == FireTimer(old(Model()))
    {
      if strayTimers > 0 {
        strayTimers := strayTimers - 1;
      } else {
        jumpTimerLive := false;
      }
      DoFall();
    }
  }
}
