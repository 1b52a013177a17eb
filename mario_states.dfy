/**
 * The closed set of states of the Mario sprite, as listed in
 * src/js/MarioStates.js, together with the numeric codes the source
 * stores in the sprite's `state` field.
 */
module MarioStates {
  import opened Wrappers

  datatype State = Standing | Falling | Crouching | Jumping | Walking

  /** The number the source uses for each state. */
  function Code(s: State): (n: nat)
    ensures n < 5
    ensures FromCode(n) == Some(s)
  {
    match s
    case Standing => 0
    case Falling => 1
    case Crouching => 2
    case Jumping => 3
    case Walking => 4
  }

  /** The state a stored number denotes, if any. */
  function FromCode(n: int): (r: Option<State>)
    ensures r.Some? <==> 0 <= n < 5
  {
    if n == 0 then Some(Standing)
    else if n == 1 then Some(Falling)
    else if n == 2 then Some(Crouching)
    else if n == 3 then Some(Jumping)
    else if n == 4 then Some(Walking)
    else None
  }

  /** Every valid code names exactly one state: decoding then encoding gives the code back. */
  lemma CodeRoundTrip(n: int)
    requires 0 <= n < 5
    ensures FromCode(n).Some? && Code(FromCode(n).value) == n
  {
  }

  /**
   * The constructor never sets the state, so the sprite starts in the
   * engine's default state 0; this records that 0 is STANDING, the
   * assumption `MarioSprite.Initial` builds on.
   */
  lemma DefaultStateIsStanding()
    ensures FromCode(0) == Some(Standing)
  {
  }
}
