/**
 * `LostAction`: the player died. The current level is reloaded behind a
 * fade, with a message shown in between.
 */
module LostAction {
  import opened GameState
  import opened GameAction

  /**
   * `LostAction::exec`: four pushes and no change to the state. Run from
   * the stack (last pushed first) they fade in, show "You Died!" for three
   * seconds, fade out and reload the level the player died on.
   */
  method Exec(ctx: ActionContext)
    modifies ctx
    ensures ctx.newActions
            == old(ctx.newActions)
               + [LoadMap(ctx.state.currentLevel), Fade(FadeOut), ShowMessage(3.0, "You Died!"), Fade(FadeIn)]
    ensures ctx.saves == old(ctx.saves)
  {
    ctx.PushAction(LoadMap(ctx.state.currentLevel));
    ctx.PushAction(Fade(FadeOut));
    ctx.PushAction(ShowMessage(3.0, "You Died!"));
    ctx.PushAction(Fade(FadeIn));
  }
}
