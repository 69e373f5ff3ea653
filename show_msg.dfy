/**
 * `ShowMessageAction`: show a message for a number of seconds, one frame at
 * a time.
 */
module ShowMessageAction {
  import opened GameState
  import opened GameAction

  /**
   * `ShowMessageAction::exec`: the message is shown; with time left after
   * this frame the action is pushed again with that time, otherwise the
   * message is cleared.
   */
  method Exec(ctx: ActionContext, lengthSec: real, msg: string)
    modifies ctx, ctx.state
    ensures lengthSec - ctx.dt > 0.0 ==>
              && ctx.state.View() == old(ctx.state.View()).(msg := msg)
              && ctx.newActions == old(ctx.newActions) + [ShowMessage(lengthSec - ctx.dt, msg)]
    ensures lengthSec - ctx.dt <= 0.0 ==>
              && ctx.state.View() == old(ctx.state.View()).(msg := "")
              && ctx.newActions == old(ctx.newActions)
    ensures ctx.saves == old(ctx.saves)
  {
    ctx.state.msg := msg;
    var left := lengthSec - ctx.dt;
    if left > 0.0 {
      ctx.PushAction(ShowMessage(left, msg));
    } else {
      ctx.state.msg := "";
    }
  }
}
