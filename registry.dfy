/**
 * `TypedAssets<T>`: the registry of one asset type. Assets that have arrived
 * are kept by name; requests that are still out are kept by path, each with
 * the name the caller asked for. The registry forwards every load request to
 * its backend and, on `poll`, turns the backend's event for a pending path
 * into an asset event.
 *
 * The backend is not part of the registry model: the paths the registry
 * hands to it are recorded in `requested`, and `poll` is given the event the
 * backend returned.
 */
module AssetRegistry {
  import opened Wrappers
  import opened Loader

  datatype Asset<T> = Asset(name: string, path: string, data: T)

  datatype AssetEvent<T> = Loaded(asset: Asset<T>) | LoadFailed(name: string, path: string)
  {
    function Name(): string {
      if Loaded? then asset.name else name
    }

    function Path(): string {
      if Loaded? then asset.path else path
    }
  }

  /** The `Load` record a decoder receives. */
  datatype LoadRequest = LoadRequest(name: string, path: string, data: Bytes)

  /** The abstract state of a registry: loaded assets by name, pending names by path, requests sent to the backend. */
  datatype Registry<T> = Registry(loaded: map<string, Asset<T>>, pending: map<string, string>, requested: seq<string>)

  function Empty<T>(): Registry<T> {
    Registry(map[], map[], [])
  }

  /** `load`: remember `name` under `path`, replacing any earlier name for that path, and request the path. */
  function LoadStep<T>(reg: Registry<T>, path: string, name: string): Registry<T> {
    Registry(reg.loaded, reg.pending[path := name], reg.requested + [path])
  }

  /** `get`: the asset loaded under `name`, if any. */
  function Lookup<T>(reg: Registry<T>, name: string): Option<Asset<T>> {
    if name in reg.loaded then Some(reg.loaded[name]) else None
  }

  /**
   * `poll`, given the backend's event: an event for a pending path takes the
   * path out of `pending` and is decoded (a `Load`) or reported as a failure
   * (a `LoadFailed`); no event, or one for a path that is not pending,
   * changes nothing and yields nothing.
   */
  function PollStep<T>(reg: Registry<T>, ev: Option<LoaderEvent>, decode: LoadRequest -> Result<T>)
    : (r: (Registry<T>, Option<AssetEvent<T>>))
    ensures r.1.None? <==> ev.None? || ev.value.path !in reg.pending
    ensures r.1.None? ==> r.0 == reg
    ensures r.0.requested == reg.requested
    ensures r.1.Some? ==>
              && r.0.pending == reg.pending - {ev.value.path}
              && r.1.value.Path() == ev.value.path
              && r.1.value.Name() == reg.pending[ev.value.path]
    ensures r.1.Some? && r.1.value.Loaded? ==>
              && ev.value.Load?
              && decode(LoadRequest(r.1.value.Name(), ev.value.path, ev.value.data)) == Ok(r.1.value.asset.data)
              && r.0.loaded == reg.loaded[r.1.value.Name() := r.1.value.asset]
    ensures r.1.Some? && r.1.value.LoadFailed? ==>
              && r.0.loaded == reg.loaded
              && (ev.value.Load? ==> decode(LoadRequest(r.1.value.Name(), ev.value.path, ev.value.data)).Err?)
  {
    if ev.None? || ev.value.path !in reg.pending then (reg, None)
    else
      var path := ev.value.path;
      var name := reg.pending[path];
      var pending := reg.pending - {path};
      if ev.value.LoadFailed? then (Registry(reg.loaded, pending, reg.requested), Some(AssetEvent.LoadFailed(name, path)))
      else
        match decode(LoadRequest(name, path, ev.value.data))
        case Ok(t) =>
          var asset := Asset(name, path, t);
          (Registry(reg.loaded[name := asset], pending, reg.requested), Some(Loaded(asset)))
        case Err => (Registry(reg.loaded, pending, reg.requested), Some(AssetEvent.LoadFailed(name, path)))
  }

  /** Removing a present key shrinks a map by one. */
  lemma RemoveKeyCard<K, V>(m: map<K, V>, k: K)
    requires k in m
    ensures |m - {k}| + 1 == |m|
  {
    assert (m - {k}).Keys == m.Keys - {k};
    assert |m.Keys - {k}| + 1 == |m.Keys|;
  }

  /**
   * `load` keeps one pending entry per path: the path now maps to the new
   * name, the pending map grows by one only for a path that was not already
   * pending, and exactly one request goes to the backend.
   */
  lemma LoadOneEntryPerPath<T>(reg: Registry<T>, path: string, name: string)
    ensures var r := LoadStep(reg, path, name);
            && path in r.pending && r.pending[path] == name
            && |r.pending| == |reg.pending| + (if path in reg.pending then 0 else 1)
            && r.requested == reg.requested + [path]
  {
    var r := LoadStep(reg, path, name);
    if path in reg.pending {
      assert r.pending.Keys == reg.pending.Keys;
    } else {
      assert r.pending.Keys == reg.pending.Keys + {path};
    }
  }

  /** A name that is only pending is never visible: `load` does not change what `get` returns for any name. */
  lemma LoadIsNotVisible<T>(reg: Registry<T>, path: string, name: string, other: string)
    ensures Lookup(LoadStep(reg, path, name), other) == Lookup(reg, other)
  {
  }

  /** `get` answers exactly for the loaded names, with the asset loaded under that name. */
  lemma LookupIsLoaded<T>(reg: Registry<T>, name: string)
    requires forall n :: n in reg.loaded ==> reg.loaded[n].name == n
    ensures Lookup(reg, name).Some? <==> name in reg.loaded
    ensures Lookup(reg, name).Some? ==> Lookup(reg, name).value == reg.loaded[name] && Lookup(reg, name).value.name == name
  {
  }

  /** Every event `poll` reports accounts for exactly one pending path. */
  lemma PollAccountsForOnePending<T>(reg: Registry<T>, ev: Option<LoaderEvent>, decode: LoadRequest -> Result<T>)
    ensures var r := PollStep(reg, ev, decode);
            |r.0.pending| + (if r.1.Some? then 1 else 0) == |reg.pending|
  {
    var r := PollStep(reg, ev, decode);
    if r.1.Some? {
      RemoveKeyCard(reg.pending, ev.value.path);
    }
  }

  /** `poll` never forgets a loaded asset, and keeps every asset filed under its own name. */
  lemma PollKeepsLoaded<T>(reg: Registry<T>, ev: Option<LoaderEvent>, decode: LoadRequest -> Result<T>)
    requires forall n :: n in reg.loaded ==> reg.loaded[n].name == n
    ensures var r := PollStep(reg, ev, decode);
            && reg.loaded.Keys <= r.0.loaded.Keys
            && forall n :: n in r.0.loaded ==> r.0.loaded[n].name == n
  {
  }

  /**
   * The asset kept under a name comes from the completion that arrived
   * last, not from the load requested last: with `a` requested before `b`
   * under the same name, a completion of `b` followed by one of `a` leaves
   * the asset read from `a`.
   */
  lemma LastCompletionWins<T>(reg: Registry<T>, a: string, b: string, name: string,
                              dataA: Bytes, dataB: Bytes, decode: LoadRequest -> Result<T>)
    requires a != b
    requires decode(LoadRequest(name, a, dataA)).Ok? && decode(LoadRequest(name, b, dataB)).Ok?
    ensures var requested := LoadStep(LoadStep(reg, a, name), b, name);
            var afterB := PollStep(requested, Some(Load(b, dataB)), decode).0;
            var afterA := PollStep(afterB, Some(Load(a, dataA)), decode).0;
            && Lookup(afterA, name) == Some(Asset(name, a, decode(LoadRequest(name, a, dataA)).value))
            && afterA.pending == reg.pending - {a, b}
  {
    var requested := LoadStep(LoadStep(reg, a, name), b, name);
    var afterB := PollStep(requested, Some(Load(b, dataB)), decode).0;
    assert a in afterB.pending && afterB.pending[a] == name;
    var afterA := PollStep(afterB, Some(Load(a, dataA)), decode).0;
    assert afterA.pending == reg.pending - {a, b};
  }

  /**
   * Loading one path twice leaves a single pending entry, so only the first
   * completion for that path is reported; the second, though requested
   * from the backend, is dropped as stale.
   */
  lemma DuplicateLoadReportsOnce<T>(reg: Registry<T>, path: string, first: string, second: string,
                                    ev1: LoaderEvent, ev2: LoaderEvent, decode: LoadRequest -> Result<T>)
    requires ev1.path == path && ev2.path == path
    ensures var requested := LoadStep(LoadStep(reg, path, first), path, second);
            var r1 := PollStep(requested, Some(ev1), decode);
            var r2 := PollStep(r1.0, Some(ev2), decode);
            && requested.requested == reg.requested + [path, path]
            && r1.1.Some? && r1.1.value.Name() == second
            && r2.1.None? && r2.0 == r1.0
  {
    var requested := LoadStep(LoadStep(reg, path, first), path, second);
    assert requested.requested == reg.requested + [path, path];
  }

  /** `TypedAssets`: the loaded and pending maps, and the requests forwarded to the backend. */
  class TypedAssets<T> {
    var loaded: map<string, Asset<T>>
    var pending: map<string, string>
    var requested: seq<string>

    function Model(): Registry<T>
      reads this
    {
      Registry(loaded, pending, requested)
    }

    constructor ()
      ensures Model() == Empty()
    {
      loaded := map[];
      pending := map[];
      requested := [];
    }

    method Load(path: string, name: string)
      modifies this
      ensures Model() == LoadStep(old(Model()), path, name)
    {
      pending := pending[path := name];
      requested := requested + [path];
    }

    function Get(name: string): Option<Asset<T>>
      reads this
    {
      Lookup(Model(), name)
    }

    /** `poll`, given the event the backend returned for this call. */
    method Poll(ev: Option<LoaderEvent>, decode: LoadRequest -> Result<T>) returns (e: Option<AssetEvent<T>>)
      modifies this
      ensures (Model(), e) == PollStep(old(Model()), ev, decode)
    {
      e := None;
      if ev.Some? {
        var path := ev.value.path;
        if path in pending {
          var name := pending[path];
          pending := pending - {path};
          if ev.value.LoadFailed? {
            e := Some(AssetEvent.LoadFailed(name, path));
          } else {
            var decoded := decode(LoadRequest(name, path, ev.value.data));
            match decoded {
              case Ok(t) =>
                var asset := Asset(name, path, t);
                loaded := loaded[name := asset];
                e := Some(Loaded(asset));
              case Err =>
                e := Some(AssetEvent.LoadFailed(name, path));
            }
          }
        }
      }
    }
  }
}
