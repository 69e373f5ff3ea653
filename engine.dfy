/**
 * `GGEngine`'s frame lifecycle. The engine waits in `Preinit` until the
 * user gives the window some input, runs the app's `init` once in `Init`,
 * and from then on stays in `Postinit`, running the app's `update` every
 * frame. The asset store is polled at the start of every frame, and once
 * more just before `update`.
 *
 * The app is not modelled here: the engine records the callbacks it makes
 * (`calls`), and the `load` calls a callback makes through the store it is
 * lent are a parameter of `Update`, as is what each backend returns to the
 * store's polls.
 */
module Engine {
  import opened Wrappers
  import opened Loader
  import opened AssetStore

  datatype EngineState = Preinit | Init | Postinit

  /** The egui input events that matter to the engine; every other kind is `OtherEvent`. */
  datatype InputEvent = Key | PointerButton | Touch | OtherEvent

  /** A callback into the app. */
  datatype AppCall = AppInit | AppUpdate

  predicate IsUserInput(e: InputEvent) {
    e.Key? || e.PointerButton? || e.Touch?
  }

  /** How many of a frame's events are keys, pointer buttons or touches. */
  function UserInputCount(events: seq<InputEvent>): (n: nat)
    ensures n <= |events|
  {
    if events == [] then 0
    else UserInputCount(events[..|events| - 1]) + (if IsUserInput(events[|events| - 1]) then 1 else 0)
  }

  /** The count is positive exactly when some event is a key, pointer button or touch. */
  lemma {:induction false} UserInputCountPositive(events: seq<InputEvent>)
    ensures UserInputCount(events) > 0 <==> exists i :: 0 <= i < |events| && IsUserInput(events[i])
  {
    if events != [] {
      var init := events[..|events| - 1];
      UserInputCountPositive(init);
      if exists i :: 0 <= i < |init| && IsUserInput(init[i]) {
        var i :| 0 <= i < |init| && IsUserInput(init[i]);
        assert events[i] == init[i];
      }
      if exists i :: 0 <= i < |events| && IsUserInput(events[i]) {
        var i :| 0 <= i < |events| && IsUserInput(events[i]);
        if i < |init| {
          assert init[i] == events[i];
        }
      }
    }
  }

  /**
   * The state change and callbacks of one `update`, given the frame's input
   * events: `Preinit` moves on only on user input and calls nothing;
   * `Init` runs the app's `init` and moves to `Postinit`; `Postinit` runs
   * the app's `update` and stays.
   */
  function Step(s: EngineState, events: seq<InputEvent>): (r: (EngineState, seq<AppCall>))
    ensures s == Preinit ==> (r.0 == Init <==> UserInputCount(events) > 0)
    ensures s == Preinit ==> r.1 == [] && r.0 != Postinit
    ensures s == Init ==> r == (Postinit, [AppInit])
    ensures s == Postinit ==> r == (Postinit, [AppUpdate])
  {
    match s
    case Preinit => (if UserInputCount(events) > 0 then Init else Preinit, [])
    case Init => (Postinit, [AppInit])
    case Postinit => (Postinit, [AppUpdate])
  }

  /** A run of updates, one per frame: the final state and every callback made, in order. */
  function Run(s: EngineState, frames: seq<seq<InputEvent>>): (EngineState, seq<AppCall>)
    decreases |frames|
  {
    if frames == [] then (s, [])
    else
      var (s', calls) := Step(s, frames[0]);
      var (final, rest) := Run(s', frames[1..]);
      (final, calls + rest)
  }

  /**
   * Over any run: only the first callback can be `init`, every later one is
   * `update`; a run from `Postinit` never calls `init`; and a run that ends
   * before `Postinit` made no callback at all, so no state leads back.
   */
  lemma {:induction false} RunCallbacks(s: EngineState, frames: seq<seq<InputEvent>>)
    ensures var (final, calls) := Run(s, frames);
            && (forall i :: 0 < i < |calls| ==> calls[i] == AppUpdate)
            && (s == Postinit ==> final == Postinit && forall i :: 0 <= i < |calls| ==> calls[i] == AppUpdate)
            && (final != Postinit ==> calls == [] && (s == Postinit ==> false))
            && (final == Preinit ==> s == Preinit)
            && |calls| <= |frames|
    decreases |frames|
  {
    if frames != [] {
      var (s', first) := Step(s, frames[0]);
      RunCallbacks(s', frames[1..]);
      var (final, rest) := Run(s', frames[1..]);
      assert Run(s, frames) == (final, first + rest);
      if s == Init {
        assert s' == Postinit;
        assert forall i :: 0 <= i < |rest| ==> rest[i] == AppUpdate;
      }
    }
  }

  /** From a fresh engine, `init` runs at most once, and it is the first callback. */
  lemma InitRunsAtMostOnce(frames: seq<seq<InputEvent>>)
    ensures var (_, calls) := Run(Preinit, frames);
            forall i :: 0 <= i < |calls| && calls[i] == AppInit ==> i == 0
  {
    RunCallbacks(Preinit, frames);
  }

  /** Some frame before the last one carries user input. */
  predicate InputBeforeLast(frames: seq<seq<InputEvent>>) {
    exists k :: 0 <= k < |frames| - 1 && UserInputCount(frames[k]) > 0
  }

  /**
   * From a fresh engine, `init` is called exactly when some frame with user
   * input is followed by another frame: the input frame moves the engine to
   * `Init`, and the next frame runs `init`.
   */
  lemma {:induction false} InitAfterInput(frames: seq<seq<InputEvent>>)
    ensures AppInit in Run(Preinit, frames).1 <==> InputBeforeLast(frames)
    decreases |frames|
  {
    if frames != [] {
      var (s', first) := Step(Preinit, frames[0]);
      var (final, rest) := Run(s', frames[1..]);
      assert Run(Preinit, frames).1 == rest;
      if UserInputCount(frames[0]) > 0 {
        if |frames| >= 2 {
          var tail := frames[1..];
          var (s'', second) := Step(Init, tail[0]);
          assert second == [AppInit];
          assert Run(Init, tail).1 == second + Run(s'', tail[1..]).1;
          assert rest[0] == AppInit;
        } else {
          assert rest == [];
        }
      } else {
        InitAfterInput(frames[1..]);
        if InputBeforeLast(frames) {
          var k :| 0 <= k < |frames| - 1 && UserInputCount(frames[k]) > 0;
          assert k > 0 && frames[1..][k - 1] == frames[k];
        }
        if InputBeforeLast(frames[1..]) {
          var k :| 0 <= k < |frames[1..]| - 1 && UserInputCount(frames[1..][k]) > 0;
          assert frames[k + 1] == frames[1..][k];
        }
      }
    }
  }

  /**
   * From a fresh engine, once a frame with user input has been followed by
   * another frame, `init` has run exactly once: it is the first callback
   * and every later one is `update`.
   */
  lemma InitRunsOnce(frames: seq<seq<InputEvent>>)
    requires InputBeforeLast(frames)
    ensures var (final, calls) := Run(Preinit, frames);
            && final == Postinit && |calls| > 0 && calls[0] == AppInit
            && forall i :: 0 < i < |calls| ==> calls[i] == AppUpdate
  {
    RunCallbacks(Preinit, frames);
    InitAfterInput(frames);
  }

  /** `GGEngine`: the lifecycle state, the frame counter, the asset store and the callbacks made so far. */
  class GGEngine {
    var state: EngineState
    var iterations: nat
    var assets: GAssets
    var calls: seq<AppCall>

    constructor ()
      ensures state == Preinit && iterations == 0 && calls == []
      ensures fresh(assets) && assets.Valid() && assets.Model() == EmptyStore
    {
      state := Preinit;
      iterations := 0;
      assets := new GAssets();
      calls := [];
    }

    /**
     * `update`: poll the store, advance the lifecycle, and count the frame.
     * `first` and `second` are what the backends return to the first and,
     * in `Postinit`, the second poll of the frame; `appLoads` are the `load`
     * calls the app's `init` (in `Init`) or `update` (in `Postinit`) makes
     * on the store it is lent.
     */
    method Update(events: seq<InputEvent>, first: AssetKind -> Option<LoaderEvent>,
                  second: AssetKind -> Option<LoaderEvent>, codecs: Codecs, appLoads: seq<LoadCall>)
      requires assets.Valid()
      modifies this, assets
      ensures assets == old(assets) && assets.Valid()
      ensures state == Step(old(state), events).0
      ensures calls == old(calls) + Step(old(state), events).1
      ensures iterations == old(iterations) + 1
      ensures old(state) == Preinit ==> assets.Model() == StorePoll(old(assets.Model()), first, codecs)
      ensures old(state) == Init ==> assets.Model() == LoadEach(StorePoll(old(assets.Model()), first, codecs), appLoads)
      ensures old(state) == Postinit ==>
                assets.Model() == LoadEach(StorePoll(StorePoll(old(assets.Model()), first, codecs), second, codecs), appLoads)
    {
      assets.Poll(first, codecs);
      match state {
        case Preinit =>
          if UserInputCount(events) > 0 {
            state := Init;
          }
        case Init =>
          calls := calls + [AppInit];
          LoadAll(assets, appLoads);
          state := Postinit;
        case Postinit =>
          assets.Poll(second, codecs);
          calls := calls + [AppUpdate];
          LoadAll(assets, appLoads);
      }
      iterations := iterations + 1;
    }
  }
}
