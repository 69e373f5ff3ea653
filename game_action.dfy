/**
 * `ActionContext`: what an action sees while it runs — the game state it
 * may change, the list of actions it pushes, the asset store (read only) and
 * the frame time. Values the action hands to `persist::save` are recorded in
 * `saves`, in call order.
 */
module GameAction {
  import opened GameState
  import opened AssetStore

  /** One `persist::save(key, value)` call. */
  datatype Saved = Saved(key: string, value: string)

  class ActionContext {
    const state: State
    var newActions: seq<Action>
    const assets: GAssets
    const dt: real
    var saves: seq<Saved>

    constructor (state: State, assets: GAssets, dt: real)
      ensures this.state == state && this.assets == assets && this.dt == dt
      ensures newActions == [] && saves == []
    {
      this.state := state;
      this.assets := assets;
      this.dt := dt;
      newActions := [];
      saves := [];
    }

    /** `push_action`: append to the actions this one leaves behind. */
    method PushAction(a: Action)
      modifies this
      ensures newActions == old(newActions) + [a]
      ensures saves == old(saves)
    {
      newActions := newActions + [a];
    }

    /** `persist::save("current_level", …)` as a recorded effect. */
    method SaveCurrentLevel(value: string)
      modifies this
      ensures saves == old(saves) + [Saved("current_level", value)]
      ensures newActions == old(newActions)
    {
      saves := saves + [Saved("current_level", value)];
    }
  }
}
