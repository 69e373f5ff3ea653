/**
 * `FinishAction`: the player reached an exit. With no next level the game
 * is won; otherwise the next level is loaded behind a fade.
 */
module FinishAction {
  import opened GameState
  import opened GameAction

  /**
   * `FinishAction::exec`. Actions are pushed in the order listed; since the
   * action stack runs the last pushed first, the fade out runs first.
   */
  method Exec(ctx: ActionContext)
    modifies ctx, ctx.state
    ensures old(ctx.state.nextLevel) == "" ==>
              && ctx.state.View() == old(ctx.state.View()).(won := true, msg := "You Won!", currentLevel := "")
              && ctx.saves == old(ctx.saves) + [Saved("current_level", "")]
              && ctx.newActions == old(ctx.newActions) + [Fade(FadeOut)]
    ensures old(ctx.state.nextLevel) != "" ==>
              && ctx.state.View() == old(ctx.state.View())
              && ctx.saves == old(ctx.saves)
              && ctx.newActions == old(ctx.newActions) + [Fade(FadeIn), LoadMap(old(ctx.state.nextLevel)), Fade(FadeOut)]
  {
    if |ctx.state.nextLevel| == 0 {
      ctx.state.won := true;
      ctx.state.msg := "You Won!";
      ctx.state.currentLevel := "";
      ctx.SaveCurrentLevel(ctx.state.currentLevel);
      ctx.PushAction(Fade(FadeOut));
    } else {
      ctx.PushAction(Fade(FadeIn));
      ctx.PushAction(LoadMap(ctx.state.nextLevel));
      ctx.PushAction(Fade(FadeOut));
    }
  }
}
