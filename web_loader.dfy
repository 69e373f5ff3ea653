/**
 * The browser backend: new requests wait in a list that is served
 * last-in-first-out, one per `poll`; each dispatched path gets a fetch task
 * and a one-shot channel, kept in a map from path to receiver.
 *
 * The fetch tasks and channels are not modelled as futures. Each `Poll` is
 * told, by a `status` function, what `try_recv` reports for the receiver of
 * every in-flight path at that moment; the iteration order of the map is
 * left open.
 */
module WebLoader {
  import opened Wrappers
  import opened Loader

  /** How a `fetch` of the path ended, as `load_asset_async` sees it. */
  datatype FetchOutcome = FetchError | NotOk | BodyError | Body(data: Bytes)

  /** `load_asset_async`: every failure becomes `LoadFailed(path)`, a body becomes `Load(path, bytes)`. */
  function FetchEvent(path: string, outcome: FetchOutcome): (e: LoaderEvent)
    ensures e.path == path
    ensures e.Load? <==> outcome.Body?
    ensures e.Load? ==> e.data == outcome.data
  {
    match outcome
    case Body(data) => Load(path, data)
    case _ => LoadFailed(path)
  }

  /** What `try_recv` reports: nothing yet, the task's event, or a dropped sender. */
  datatype Receiver = Waiting | Sent(outcome: FetchOutcome) | Canceled

  /** The event a receiver yields for its path, if it yields one. */
  function Received(path: string, rx: Receiver): (e: Option<LoaderEvent>)
    ensures e.None? <==> rx.Waiting?
    ensures e.Some? ==> e.value.path == path
    ensures rx.Canceled? ==> e == Some(LoadFailed(path))
  {
    match rx
    case Waiting => None
    case Sent(outcome) => Some(FetchEvent(path, outcome))
    case Canceled => Some(LoadFailed(path))
  }

  /** The in-flight paths once `poll` has dispatched the most recent new request, if there is one. */
  function AfterDispatch(inFlight: set<string>, newRequests: seq<string>): set<string> {
    if newRequests == [] then inFlight else inFlight + {newRequests[|newRequests| - 1]}
  }

  /**
   * The scan of `poll`: visit the in-flight paths in some order and stop at
   * the first whose receiver is not waiting.
   */
  method FirstReady(paths: set<string>, status: string -> Receiver) returns (found: Option<string>)
    ensures found.None? <==> forall p :: p in paths ==> status(p).Waiting?
    ensures found.Some? ==> found.value in paths && !status(found.value).Waiting?
  {
    var todo := paths;
    while todo != {}
      invariant todo <= paths
      invariant forall p :: p in paths - todo ==> status(p).Waiting?
      decreases todo
    {
      var p :| p in todo;
      if !status(p).Waiting? {
        return Some(p);
      }
      todo := todo - {p};
    }
    return None;
  }

  /** `WebLoader`: the keys of `pending_requests` and the `new_requests` list. */
  class WebLoader {
    var pendingRequests: set<string>
    var newRequests: seq<string>

    constructor ()
      ensures pendingRequests == {} && newRequests == []
    {
      pendingRequests := {};
      newRequests := [];
    }

    /** `request`: only remember the path. */
    method Request(path: string)
      modifies this
      ensures newRequests == old(newRequests) + [path]
      ensures pendingRequests == old(pendingRequests)
    {
      newRequests := newRequests + [path];
    }

    /**
     * `poll`: dispatch the newest request, then report the first ready
     * receiver and forget its path. `answered` names the path whose receiver
     * was reported.
     */
    method Poll(status: string -> Receiver) returns (e: Option<LoaderEvent>, ghost answered: Option<string>)
      modifies this
      ensures old(newRequests) == [] ==> newRequests == []
      ensures old(newRequests) != [] ==> newRequests == old(newRequests)[..|old(newRequests)| - 1]
      ensures var inFlight := AfterDispatch(old(pendingRequests), old(newRequests));
              && (answered.None? ==> e.None? && pendingRequests == inFlight
                                     && forall p :: p in inFlight ==> status(p).Waiting?)
              && (answered.Some? ==> answered.value in inFlight
                                     && e == Received(answered.value, status(answered.value)) && e.Some?
                                     && pendingRequests == inFlight - {answered.value})
    {
      if newRequests != [] {
        var path := newRequests[|newRequests| - 1];
        newRequests := newRequests[..|newRequests| - 1];
        // inserting a path that is already in flight replaces its receiver
        pendingRequests := pendingRequests + {path};
      }
      var found := FirstReady(pendingRequests, status);
      answered := found;
      e := None;
      if found.Some? {
        e := Received(found.value, status(found.value));
        pendingRequests := pendingRequests - {found.value};
      }
    }
  }
}
