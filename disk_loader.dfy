/**
 * The native backend: a FIFO queue of requested paths and a single slot for
 * the load that is in flight on a worker thread.
 *
 * The worker thread is not modelled as a thread. Each `Poll` is told, by a
 * `WorkerProbe`, what `is_finished` and `join` would report at that moment:
 * still running, finished after reading the bytes, finished after a read
 * error, or finished by panicking.
 */
module DiskLoader {
  import opened Wrappers
  import opened Loader

  /** What the in-flight worker looks like when `poll` inspects its handle. */
  datatype WorkerProbe = Running | ReadOk(data: Bytes) | ReadErr | Panicked

  /** The path reported for a worker that panicked instead of returning an event. */
  const UnknownError: string := "unknown error"

  /** The event a finished worker hands back for `path` (None while it still runs). */
  function WorkerEvent(path: string, probe: WorkerProbe): (e: Option<LoaderEvent>)
    ensures e.None? <==> probe.Running?
    ensures probe.ReadOk? ==> e == Some(Load(path, probe.data))
    ensures probe.ReadErr? ==> e == Some(LoadFailed(path))
    ensures probe.Panicked? ==> e == Some(LoadFailed(UnknownError))
  {
    match probe
    case Running => None
    case ReadOk(data) => Some(Load(path, data))
    case ReadErr => Some(LoadFailed(path))
    case Panicked => Some(LoadFailed(UnknownError))
  }

  /** The abstract state of a `DiskLoader`: the queue and the in-flight slot. */
  datatype DiskState = DiskState(requests: seq<string>, inFlight: Option<string>)

  const Idle := DiskState([], None)

  /**
   * One `poll`: returns the new state, the event it reports, and the path it
   * dispatched to a new worker, if any.
   */
  function PollStep(s: DiskState, probe: WorkerProbe): (r: (DiskState, Option<LoaderEvent>, Option<string>))
    // a poll reports an event or dispatches, never both
    ensures r.1.None? || r.2.None?
    // with a load in flight nothing is dispatched; the slot empties exactly when an event comes back
    ensures s.inFlight.Some? ==> r.2.None? && r.0.requests == s.requests
    ensures s.inFlight.Some? ==> (r.1.Some? <==> !probe.Running?)
    ensures s.inFlight.Some? && probe.Running? ==> r.0 == s
    ensures s.inFlight.Some? && !probe.Running? ==> r.0.inFlight.None?
    // the event names the path that was in flight, except for a panicked worker
    ensures s.inFlight.Some? && r.1.Some? && !probe.Panicked? ==> r.1.value.path == s.inFlight.value
    // with the slot empty, the front of the queue is dispatched and nothing is reported
    ensures s.inFlight.None? ==> r.1.None?
    ensures s.inFlight.None? && s.requests == [] ==> r.0 == s && r.2.None?
    ensures s.inFlight.None? && s.requests != [] ==>
              r.2 == Some(s.requests[0]) && r.0 == DiskState(s.requests[1..], Some(s.requests[0]))
  {
    match s.inFlight
    case Some(path) =>
      if probe.Running? then (s, None, None)
      else (DiskState(s.requests, None), WorkerEvent(path, probe), None)
    case None =>
      if s.requests == [] then (s, None, None)
      else (DiskState(s.requests[1..], Some(s.requests[0])), None, Some(s.requests[0]))
  }

  /** One call on the loader, as seen from outside. */
  datatype DiskCall = Request(path: string) | Poll(probe: WorkerProbe)

  /** The paths requested by a sequence of calls, in call order. */
  function Requested(calls: seq<DiskCall>): seq<string> {
    if calls == [] then []
    else (if calls[0].Request? then [calls[0].path] else []) + Requested(calls[1..])
  }

  /** A run of calls: the final state, the paths dispatched in order, the events reported in order. */
  datatype Trace = Trace(final: DiskState, dispatched: seq<string>, events: seq<LoaderEvent>)

  function Run(s: DiskState, calls: seq<DiskCall>): Trace
    decreases |calls|
  {
    if calls == [] then Trace(s, [], [])
    else
      match calls[0]
      case Request(path) => Run(DiskState(s.requests + [path], s.inFlight), calls[1..])
      case Poll(probe) =>
        var (s', e, d) := PollStep(s, probe);
        var t := Run(s', calls[1..]);
        Trace(t.final,
              (if d.Some? then [d.value] else []) + t.dispatched,
              (if e.Some? then [e.value] else []) + t.events)
  }

  function InFlightCount(s: DiskState): nat {
    if s.inFlight.Some? then 1 else 0
  }

  /**
   * FIFO dispatch: over any run, the paths dispatched followed by the paths
   * still queued are exactly the paths that were queued at the start followed
   * by the paths requested during the run, in order.
   */
  lemma {:induction false} RunIsFifo(s: DiskState, calls: seq<DiskCall>)
    ensures Run(s, calls).dispatched + Run(s, calls).final.requests == s.requests + Requested(calls)
    decreases |calls|
  {
    if calls != [] {
      var rest := calls[1..];
      match calls[0]
      case Request(path) =>
        var s1 := DiskState(s.requests + [path], s.inFlight);
        RunIsFifo(s1, rest);
        assert Requested(calls) == [path] + Requested(rest);
        assert s1.requests + Requested(rest) == s.requests + Requested(calls);
      case Poll(probe) =>
        var r := PollStep(s, probe);
        var t := Run(r.0, rest);
        RunIsFifo(r.0, rest);
        assert Requested(calls) == Requested(rest);
        if r.2.Some? {
          var d := r.2.value;
          assert Run(s, calls) == Trace(t.final, [d] + t.dispatched, Run(s, calls).events);
          assert s.requests == [d] + r.0.requests;
          calc {
            ([d] + t.dispatched) + t.final.requests;
            [d] + (t.dispatched + t.final.requests);
            [d] + (r.0.requests + Requested(rest));
            ([d] + r.0.requests) + Requested(rest);
          }
        } else {
          assert Run(s, calls).dispatched == t.dispatched;
          assert r.0.requests == s.requests;
        }
    }
  }

  /**
   * Every event answers one dispatch: the events reported plus the load
   * still in flight equal the loads in flight at the start plus the
   * dispatches.
   */
  lemma {:induction false} RunAnswersDispatches(s: DiskState, calls: seq<DiskCall>)
    ensures |Run(s, calls).events| + InFlightCount(Run(s, calls).final)
            == InFlightCount(s) + |Run(s, calls).dispatched|
    decreases |calls|
  {
    if calls != [] {
      var rest := calls[1..];
      match calls[0]
      case Request(path) =>
        RunAnswersDispatches(DiskState(s.requests + [path], s.inFlight), rest);
      case Poll(probe) =>
        var r := PollStep(s, probe);
        RunAnswersDispatches(r.0, rest);
    }
  }

  /** From a fresh loader, every event reported is preceded by a dispatch: nothing is answered that was not asked. */
  lemma FreshRunDispatchesInRequestOrder(calls: seq<DiskCall>)
    ensures Run(Idle, calls).dispatched <= Requested(calls)
    ensures |Run(Idle, calls).events| <= |Run(Idle, calls).dispatched|
  {
    RunIsFifo(Idle, calls);
    RunAnswersDispatches(Idle, calls);
    var t := Run(Idle, calls);
    assert (t.dispatched + t.final.requests)[..|t.dispatched|] == t.dispatched;
  }

  /** `DiskLoader`: the requests queue and the join-handle slot. */
  class DiskLoader {
    var requests: seq<string>
    var loadHandle: Option<string>

    function Model(): DiskState
      reads this
    {
      DiskState(requests, loadHandle)
    }

    constructor ()
      ensures Model() == Idle
    {
      requests := [];
      loadHandle := None;
    }

    /** `request`: push to the back of the queue. */
    method Request(path: string)
      modifies this
      ensures requests == old(requests) + [path]
      ensures loadHandle == old(loadHandle)
    {
      requests := requests + [path];
    }

    /** `poll`: collect a finished worker, or start the next one. */
    method Poll(probe: WorkerProbe) returns (e: Option<LoaderEvent>)
      modifies this
      ensures (Model(), e) == (PollStep(old(Model()), probe).0, PollStep(old(Model()), probe).1)
    {
      match loadHandle {
        case Some(path) =>
          if !probe.Running? {
            loadHandle := None;
            match probe {
              case ReadOk(data) => return Some(Load(path, data));
              case ReadErr => return Some(LoadFailed(path));
              case Panicked => return Some(LoadFailed(UnknownError));
            }
          }
        case None =>
          if requests != [] {
            var s := requests[0];
            requests := requests[1..];
            loadHandle := Some(s);
          }
      }
      return None;
    }
  }
}
