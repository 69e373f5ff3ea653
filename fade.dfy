/**
 * `FadeAction`: move the screen fade towards clear (`In`, towards 0) or
 * black (`Out`, towards 1) at three units per second, and keep going on
 * later frames until the end is reached.
 */
module FadeAction {
  import opened GameState
  import opened GameAction

  const Speed: real := 3.0

  /** `f32::clamp(x, 0.0, 1.0)`. */
  function Clamp01(x: real): (r: real)
    ensures 0.0 <= r <= 1.0
    ensures 0.0 <= x <= 1.0 ==> r == x
    ensures x < 0.0 ==> r == 0.0
    ensures x > 1.0 ==> r == 1.0
  {
    if x < 0.0 then 0.0 else if x > 1.0 then 1.0 else x
  }

  /** The sign of a direction: `In` lowers the fade, `Out` raises it. */
  function Sign(direction: FadeDirection): real {
    match direction
    case FadeIn => -1.0
    case FadeOut => 1.0
  }

  /** The fade's end value in a direction. */
  function Target(direction: FadeDirection): real {
    match direction
    case FadeIn => 0.0
    case FadeOut => 1.0
  }

  /** One frame of fading. */
  function FadeStep(fade: real, direction: FadeDirection, dt: real): real {
    Clamp01(fade + dt * Sign(direction) * Speed)
  }

  /** `n` frames of fading. */
  function FadeAfter(fade: real, direction: FadeDirection, dt: real, n: nat): real
    decreases n
  {
    if n == 0 then fade else FadeAfter(FadeStep(fade, direction, dt), direction, dt, n - 1)
  }

  /**
   * With a positive frame time, a fade in from `fade` is at 0 once the
   * frames add up to `fade / 3` seconds, and never moves away again.
   */
  lemma {:induction false} FadeInArrives(fade: real, dt: real, n: nat)
    requires 0.0 <= fade <= 1.0 && dt > 0.0
    requires (n as real) * dt * Speed >= fade
    ensures FadeAfter(fade, FadeIn, dt, n) == 0.0
    decreases n
  {
    if n > 0 {
      var next := FadeStep(fade, FadeIn, dt);
      assert next == Clamp01(fade - dt * Speed);
      if fade - dt * Speed <= 0.0 {
        assert next == 0.0;
        FadeInStays(dt, n - 1);
      } else {
        assert ((n - 1) as real) * dt * Speed >= next;
        FadeInArrives(next, dt, n - 1);
      }
    }
  }

  /** A fade in that has arrived stays at 0. */
  lemma {:induction false} FadeInStays(dt: real, n: nat)
    requires dt >= 0.0
    ensures FadeAfter(0.0, FadeIn, dt, n) == 0.0
    decreases n
  {
    if n > 0 {
      assert FadeStep(0.0, FadeIn, dt) == 0.0;
      FadeInStays(dt, n - 1);
    }
  }

  /** With a positive frame time, a fade out from `fade` is at 1 once the frames add up to `(1 - fade) / 3` seconds. */
  lemma {:induction false} FadeOutArrives(fade: real, dt: real, n: nat)
    requires 0.0 <= fade <= 1.0 && dt > 0.0
    requires (n as real) * dt * Speed >= 1.0 - fade
    ensures FadeAfter(fade, FadeOut, dt, n) == 1.0
    decreases n
  {
    if n > 0 {
      var next := FadeStep(fade, FadeOut, dt);
      assert next == Clamp01(fade + dt * Speed);
      if fade + dt * Speed >= 1.0 {
        assert next == 1.0;
        FadeOutStays(dt, n - 1);
      } else {
        assert ((n - 1) as real) * dt * Speed >= 1.0 - next;
        FadeOutArrives(next, dt, n - 1);
      }
    }
  }

  /** A fade out that has arrived stays at 1. */
  lemma {:induction false} FadeOutStays(dt: real, n: nat)
    requires dt >= 0.0
    ensures FadeAfter(1.0, FadeOut, dt, n) == 1.0
    decreases n
  {
    if n > 0 {
      assert FadeStep(1.0, FadeOut, dt) == 1.0;
      FadeOutStays(dt, n - 1);
    }
  }

  /**
   * `FadeAction::exec`: one step of fading, kept between 0 and 1; the same
   * fade is pushed again unless it has reached its end.
   */
  method Exec(ctx: ActionContext, direction: FadeDirection)
    modifies ctx, ctx.state
    ensures ctx.state.View() == old(ctx.state.View()).(fade := FadeStep(old(ctx.state.fade), direction, ctx.dt))
    ensures 0.0 <= ctx.state.fade <= 1.0
    ensures ctx.newActions == old(ctx.newActions) + (if ctx.state.fade == Target(direction) then [] else [Fade(direction)])
    ensures ctx.saves == old(ctx.saves)
  {
    var dir: real := match direction case FadeIn => -1.0 case FadeOut => 1.0;
    var delta := ctx.dt * dir * Speed;
    ctx.state.fade := ctx.state.fade + delta;
    ctx.state.fade := Clamp01(ctx.state.fade);
    match direction {
      case FadeIn =>
        if ctx.state.fade != 0.0 {
          ctx.PushAction(Fade(direction));
        }
      case FadeOut =>
        if ctx.state.fade != 1.0 {
          ctx.PushAction(Fade(direction));
        }
    }
  }
}
