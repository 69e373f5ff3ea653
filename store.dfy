/**
 * `GAssets`: one registry per asset type, created on the first load of that
 * type, plus two counters: `total`, the loads ever requested, and `pending`,
 * the loads not yet answered. Each frame the store polls every registry once
 * and counts down `pending` for every registry that reported an event,
 * whether the asset loaded or failed.
 *
 * Rust keys the registries by `TypeId`; here the four asset types the
 * engine supports are an `AssetKind`. The format decoders (UTF-8, TMX,
 * audio) are parameters; the atlas decoder reads the grid from the file name.
 */
module AssetStore {
  import opened Wrappers
  import opened Loader
  import opened AssetRegistry
  import AtlasGrid
  import Tiled

  datatype AssetKind = Text | TiledMap | Atlas | Sound

  /** A sprite atlas: its name, the encoded image, and the grid it is cut into. */
  datatype GGAtlas = GGAtlas(name: string, image: Bytes, cols: nat, rows: nat)

  /** Decoded audio (`StaticSoundData`). */
  datatype SoundClip = SoundClip(frames: Bytes)

  datatype AssetData =
    | TextData(text: string)
    | MapData(tileMap: Tiled.TileMap)
    | AtlasData(atlas: GGAtlas)
    | SoundData(sound: SoundClip)

  function KindOf(d: AssetData): AssetKind {
    match d
    case TextData(_) => Text
    case MapData(_) => TiledMap
    case AtlasData(_) => Atlas
    case SoundData(_) => Sound
  }

  /** The format decoders the store relies on: UTF-8 text, a TMX map (given its path), audio. */
  datatype Codecs = Codecs(utf8: Bytes -> Option<string>,
                           tmx: (string, Bytes) -> Option<Tiled.TileMap>,
                           audio: Bytes -> Option<SoundClip>)

  /**
   * The decode step each registry runs on arrived bytes. Text, maps and
   * sounds fail when their decoder does; an atlas always decodes, with the
   * grid its file name announces. The image itself is not decoded, so the
   * panic of `GGAtlas::new` on bytes that are not an image is not modelled.
   */
  function Decode(kind: AssetKind, codecs: Codecs, req: LoadRequest): (r: Result<AssetData>)
    ensures r.Ok? ==> KindOf(r.value) == kind
    ensures kind == Text ==> (r.Ok? <==> codecs.utf8(req.data).Some?)
    ensures kind == TiledMap ==> (r.Ok? <==> codecs.tmx(req.path, req.data).Some?)
    ensures kind == Sound ==> (r.Ok? <==> codecs.audio(req.data).Some?)
    ensures kind == Atlas ==>
              && r.Ok?
              && r.value.atlas.name == req.name && r.value.atlas.image == req.data
              && (r.value.atlas.cols, r.value.atlas.rows) == AtlasGrid.AtlasGrid(req.path)
              && r.value.atlas.cols < 256 && r.value.atlas.rows < 256
  {
    match kind
    case Text => (match codecs.utf8(req.data) case Some(s) => Ok(TextData(s)) case None => Err)
    case TiledMap => (match codecs.tmx(req.path, req.data) case Some(m) => Ok(MapData(m)) case None => Err)
    case Sound => (match codecs.audio(req.data) case Some(c) => Ok(SoundData(c)) case None => Err)
    case Atlas =>
      var grid := AtlasGrid.AtlasGrid(req.path);
      Ok(AtlasData(GGAtlas(req.name, req.data, grid.0, grid.1)))
  }

  function Decoder(kind: AssetKind, codecs: Codecs): LoadRequest -> Result<AssetData> {
    req => Decode(kind, codecs, req)
  }

  /** The abstract state of the store. */
  datatype Store = Store(registries: map<AssetKind, Registry<AssetData>>, total: nat, pending: nat)

  const EmptyStore := Store(map[], 0, 0)

  function PendingOf(regs: map<AssetKind, Registry<AssetData>>, k: AssetKind): nat {
    if k in regs then |regs[k].pending| else 0
  }

  /** The paths still pending, summed over all registries. */
  function Outstanding(regs: map<AssetKind, Registry<AssetData>>): nat {
    PendingOf(regs, Text) + PendingOf(regs, TiledMap) + PendingOf(regs, Atlas) + PendingOf(regs, Sound)
  }

  /**
   * The store's invariant: every path pending in some registry is counted
   * in `pending`, and `pending` never exceeds `total`.
   */
  predicate Inv(s: Store) {
    Outstanding(s.registries) <= s.pending <= s.total
  }

  /** `load`: create the registry on first use, file the request in it, and count one more load. */
  function StoreLoad(s: Store, kind: AssetKind, path: string, name: string): Store {
    var reg := if kind in s.registries then s.registries[kind] else Empty();
    Store(s.registries[kind := LoadStep(reg, path, name)], s.total + 1, s.pending + 1)
  }

  /** `get`: the asset of that kind loaded under `name`; nothing for a kind never loaded. */
  function GetAsset(s: Store, kind: AssetKind, name: string): (r: Option<Asset<AssetData>>)
    ensures kind !in s.registries ==> r.None?
    ensures r.Some? <==> kind in s.registries && name in s.registries[kind].loaded
  {
    if kind in s.registries then Lookup(s.registries[kind], name) else None
  }

  /** The registry of kind `k` after this frame's poll, given what its backend returned. */
  function Polled(regs: map<AssetKind, Registry<AssetData>>, events: AssetKind -> Option<LoaderEvent>,
                  codecs: Codecs, k: AssetKind): (Registry<AssetData>, Option<AssetEvent<AssetData>>)
    requires k in regs
  {
    PollStep(regs[k], events(k), Decoder(k, codecs))
  }

  /** 1 when the registry of kind `k` exists and reports an event this frame. */
  function Fires(regs: map<AssetKind, Registry<AssetData>>, events: AssetKind -> Option<LoaderEvent>,
                 codecs: Codecs, k: AssetKind): nat {
    if k in regs && Polled(regs, events, codecs, k).1.Some? then 1 else 0
  }

  /** The number of registries among `ks` that report an event this frame. */
  function FiredAmong(regs: map<AssetKind, Registry<AssetData>>, events: AssetKind -> Option<LoaderEvent>,
                      codecs: Codecs, ks: set<AssetKind>): nat {
    (if Text in ks then Fires(regs, events, codecs, Text) else 0)
    + (if TiledMap in ks then Fires(regs, events, codecs, TiledMap) else 0)
    + (if Atlas in ks then Fires(regs, events, codecs, Atlas) else 0)
    + (if Sound in ks then Fires(regs, events, codecs, Sound) else 0)
  }

  function Fired(regs: map<AssetKind, Registry<AssetData>>, events: AssetKind -> Option<LoaderEvent>,
                 codecs: Codecs): nat {
    FiredAmong(regs, events, codecs, {Text, TiledMap, Atlas, Sound})
  }

  /** A registry that reports an event had that path pending. */
  lemma FiresAtMostPending(regs: map<AssetKind, Registry<AssetData>>, events: AssetKind -> Option<LoaderEvent>,
                           codecs: Codecs, k: AssetKind)
    ensures Fires(regs, events, codecs, k) + (if k in regs then |Polled(regs, events, codecs, k).0.pending| else 0)
            == PendingOf(regs, k)
  {
    if k in regs {
      PollAccountsForOnePending(regs[k], events(k), Decoder(k, codecs));
    }
  }

  /** However many registries are polled, no more events are reported than paths were pending. */
  lemma FiredAmongAtMostOutstanding(regs: map<AssetKind, Registry<AssetData>>,
                                    events: AssetKind -> Option<LoaderEvent>, codecs: Codecs, ks: set<AssetKind>)
    ensures FiredAmong(regs, events, codecs, ks) <= Outstanding(regs)
  {
    FiresAtMostPending(regs, events, codecs, Text);
    FiresAtMostPending(regs, events, codecs, TiledMap);
    FiresAtMostPending(regs, events, codecs, Atlas);
    FiresAtMostPending(regs, events, codecs, Sound);
  }

  /** Polling one more registry adds its event, if any, to the count. */
  lemma FiredAmongAddOne(regs: map<AssetKind, Registry<AssetData>>, events: AssetKind -> Option<LoaderEvent>,
                         codecs: Codecs, ks: set<AssetKind>, k: AssetKind)
    requires k !in ks
    ensures FiredAmong(regs, events, codecs, ks + {k}) == FiredAmong(regs, events, codecs, ks) + Fires(regs, events, codecs, k)
  {
  }

  function PollAll(regs: map<AssetKind, Registry<AssetData>>, events: AssetKind -> Option<LoaderEvent>,
                   codecs: Codecs): map<AssetKind, Registry<AssetData>> {
    map k | k in regs :: Polled(regs, events, codecs, k).0
  }

  /** Counting over every kind present counts every registry that fires. */
  lemma FiredAmongAll(regs: map<AssetKind, Registry<AssetData>>, events: AssetKind -> Option<LoaderEvent>,
                      codecs: Codecs, ks: set<AssetKind>)
    requires ks == regs.Keys
    ensures FiredAmong(regs, events, codecs, ks) == Fired(regs, events, codecs)
  {
  }

  /** Part way through `poll`: the kinds in `done` hold their polled registry, the others the registry they had. */
  predicate PartlyPolled(current: map<AssetKind, Registry<AssetData>>, regs: map<AssetKind, Registry<AssetData>>,
                         events: AssetKind -> Option<LoaderEvent>, codecs: Codecs, done: set<AssetKind>)
  {
    && current.Keys == regs.Keys
    && forall k :: k in regs ==> current[k] == (if k in done then Polled(regs, events, codecs, k).0 else regs[k])
  }

  lemma PartlyPolledStep(current: map<AssetKind, Registry<AssetData>>, regs: map<AssetKind, Registry<AssetData>>,
                         events: AssetKind -> Option<LoaderEvent>, codecs: Codecs, done: set<AssetKind>, k: AssetKind)
    requires PartlyPolled(current, regs, events, codecs, done) && k in regs && k !in done
    ensures k in current && current[k] == regs[k]
    ensures PartlyPolled(current[k := PollStep(current[k], events(k), Decoder(k, codecs)).0], regs, events, codecs, done + {k})
  {
  }

  /** Once every kind is done, the registries are those of `PollAll`. */
  lemma PolledEverywhere(result: map<AssetKind, Registry<AssetData>>, regs: map<AssetKind, Registry<AssetData>>,
                         events: AssetKind -> Option<LoaderEvent>, codecs: Codecs, done: set<AssetKind>)
    requires PartlyPolled(result, regs, events, codecs, done) && done == regs.Keys
    ensures result == PollAll(regs, events, codecs)
  {
  }

  /**
   * `poll`: every registry is polled once, in no particular order, and
   * `pending` drops by one for each registry that reported an event,
   * a successful load or a failure alike.
   */
  function StorePoll(s: Store, events: AssetKind -> Option<LoaderEvent>, codecs: Codecs): (r: Store)
    requires Inv(s)
    ensures r.total == s.total
    ensures r.pending + Fired(s.registries, events, codecs) == s.pending
    ensures r.registries.Keys == s.registries.Keys
    ensures Inv(r)
  {
    FiredAmongAtMostOutstanding(s.registries, events, codecs, {Text, TiledMap, Atlas, Sound});
    PollOutstanding(s.registries, events, codecs);
    Store(PollAll(s.registries, events, codecs), s.total, s.pending - Fired(s.registries, events, codecs))
  }

  /** `loaded()`: the loads already answered. */
  function LoadedCount(s: Store): nat
    requires s.pending <= s.total
  {
    s.total - s.pending
  }

  /** Loads requested but whose path no registry is waiting for any more: they will never be answered. */
  function Stalled(s: Store): nat
    requires Inv(s)
  {
    s.pending - Outstanding(s.registries)
  }

  /** Polling removes from the registries exactly as many pending paths as events it counts down. */
  lemma PollOutstanding(regs: map<AssetKind, Registry<AssetData>>, events: AssetKind -> Option<LoaderEvent>,
                        codecs: Codecs)
    ensures Outstanding(PollAll(regs, events, codecs)) + Fired(regs, events, codecs) == Outstanding(regs)
  {
    var polled := PollAll(regs, events, codecs);
    FiresAtMostPending(regs, events, codecs, Text);
    FiresAtMostPending(regs, events, codecs, TiledMap);
    FiresAtMostPending(regs, events, codecs, Atlas);
    FiresAtMostPending(regs, events, codecs, Sound);
  }

  /** A store that has never been used satisfies the invariant and has nothing loaded. */
  lemma EmptyStoreIsIdle()
    ensures Inv(EmptyStore) && LoadedCount(EmptyStore) == 0 && Stalled(EmptyStore) == 0
  {
  }

  /** `load` keeps the invariant, even for a path or name that is loaded again. */
  lemma LoadKeepsInv(s: Store, kind: AssetKind, path: string, name: string)
    requires Inv(s)
    ensures Inv(StoreLoad(s, kind, path, name))
    ensures Stalled(StoreLoad(s, kind, path, name)) >= Stalled(s)
  {
    var reg := if kind in s.registries then s.registries[kind] else Empty();
    var after := StoreLoad(s, kind, path, name).registries;
    LoadOneEntryPerPath(reg, path, name);
    assert PendingOf(after, kind) <= PendingOf(s.registries, kind) + 1;
    assert forall k :: k != kind ==> PendingOf(after, k) == PendingOf(s.registries, k);
  }

  /** `poll` neither adds nor removes loads that can no longer be answered. */
  lemma PollKeepsStalled(s: Store, events: AssetKind -> Option<LoaderEvent>, codecs: Codecs)
    requires Inv(s)
    ensures Stalled(StorePoll(s, events, codecs)) == Stalled(s)
  {
    PollOutstanding(s.registries, events, codecs);
  }

  /** The count of answered loads never goes down: `load` leaves it as it was, `poll` can only raise it. */
  lemma LoadedNeverDecreases(s: Store, events: AssetKind -> Option<LoaderEvent>, codecs: Codecs,
                             kind: AssetKind, path: string, name: string)
    requires Inv(s)
    ensures LoadedCount(StoreLoad(s, kind, path, name)) == LoadedCount(s)
    ensures LoadedCount(StorePoll(s, events, codecs)) == LoadedCount(s) + Fired(s.registries, events, codecs)
  {
  }

  /** Requesting a load never makes an asset visible: `get` answers as before for every kind and name. */
  lemma LoadIsInvisible(s: Store, kind: AssetKind, path: string, name: string, k: AssetKind, n: string)
    ensures GetAsset(StoreLoad(s, kind, path, name), k, n) == GetAsset(s, k, n)
  {
    var reg := if kind in s.registries then s.registries[kind] else Empty();
    LoadIsNotVisible(reg, path, name, n);
  }

  /**
   * Loading the same path twice counts two loads but leaves one pending
   * entry, so one load can never be answered: `pending` stays above zero
   * from then on, whatever the backends report.
   */
  lemma DuplicateLoadStalls(s: Store, kind: AssetKind, path: string, first: string, second: string)
    requires Inv(s)
    ensures var once := StoreLoad(s, kind, path, first);
            Inv(once) && Inv(StoreLoad(once, kind, path, second))
            && Stalled(StoreLoad(once, kind, path, second)) >= Stalled(s) + 1
            && StoreLoad(once, kind, path, second).pending >= 1
  {
    var once := StoreLoad(s, kind, path, first);
    LoadKeepsInv(s, kind, path, first);
    LoadKeepsInv(once, kind, path, second);
    var reg := once.registries[kind];
    assert path in reg.pending;
    LoadOneEntryPerPath(reg, path, second);
  }

  /** One `load` call on the store: kind, path and name. */
  datatype LoadCall = LoadCall(kind: AssetKind, path: string, name: string)

  /** The store after a list of loads, in order. */
  function LoadEach(s: Store, calls: seq<LoadCall>): Store
    decreases |calls|
  {
    if |calls| == 0 then s
    else
      var c := calls[|calls| - 1];
      StoreLoad(LoadEach(s, calls[..|calls| - 1]), c.kind, c.path, c.name)
  }

  /**
   * Every load counts once towards both counters, keeps the store's
   * invariant, and makes nothing visible yet.
   */
  lemma {:induction false} LoadEachCounts(s: Store, calls: seq<LoadCall>)
    requires Inv(s)
    ensures var r := LoadEach(s, calls);
            && Inv(r)
            && r.total == s.total + |calls| && r.pending == s.pending + |calls|
            && forall k, n :: GetAsset(r, k, n) == GetAsset(s, k, n)
    decreases |calls|
  {
    if |calls| > 0 {
      var before := calls[..|calls| - 1];
      var c := calls[|calls| - 1];
      LoadEachCounts(s, before);
      LoadKeepsInv(LoadEach(s, before), c.kind, c.path, c.name);
      forall k, n
        ensures GetAsset(LoadEach(s, calls), k, n) == GetAsset(s, k, n)
      {
        LoadIsInvisible(LoadEach(s, before), c.kind, c.path, c.name, k, n);
      }
    }
  }

  /** The tail of `LoadEach`: one more load after the others. */
  lemma LoadEachSnoc(s: Store, calls: seq<LoadCall>, c: LoadCall)
    ensures LoadEach(s, calls + [c]) == StoreLoad(LoadEach(s, calls), c.kind, c.path, c.name)
  {
    assert (calls + [c])[..|calls|] == calls;
  }

  /** A run of loads is its first part followed by the rest. */
  lemma {:induction false} LoadEachAppend(s: Store, a: seq<LoadCall>, b: seq<LoadCall>)
    ensures LoadEach(s, a + b) == LoadEach(LoadEach(s, a), b)
    decreases |b|
  {
    if |b| == 0 {
      assert a + b == a;
    } else {
      assert (a + b)[..|a + b| - 1] == a + b[..|b| - 1];
      LoadEachAppend(s, a, b[..|b| - 1]);
    }
  }

  /** One `assets.load` call, after the calls `done` made on the store `s0`. */
  method Issue(assets: GAssets, ghost s0: Store, ghost done: seq<LoadCall>, c: LoadCall)
    requires assets.Valid() && assets.Model() == LoadEach(s0, done)
    modifies assets
    ensures assets.Valid()
    ensures assets.Model() == LoadEach(s0, done + [c])
  {
    assets.Load(c.kind, c.path, c.name);
    LoadEachSnoc(s0, done, c);
  }

  /** A run of `load` calls on the store, made in order. */
  method LoadAll(assets: GAssets, calls: seq<LoadCall>)
    requires assets.Valid()
    modifies assets
    ensures assets.Valid()
    ensures assets.Model() == LoadEach(old(assets.Model()), calls)
  {
    ghost var s0 := assets.Model();
    var i := 0;
    while i < |calls|
      invariant 0 <= i <= |calls|
      invariant assets.Valid()
      invariant assets.Model() == LoadEach(s0, calls[..i])
    {
      Issue(assets, s0, calls[..i], calls[i]);
      assert calls[..i + 1] == calls[..i] + [calls[i]];
      i := i + 1;
    }
    assert calls[..i] == calls;
  }

  /**
   * `GAssets`: the registries by kind and the two counters. The store owns
   * each registry outright, so its registries are held here as the values
   * they denote and updated by the registry's own load and poll steps.
   */
  class GAssets {
    var registries: map<AssetKind, Registry<AssetData>>
    var total: nat
    var pending: nat

    function Model(): Store
      reads this
    {
      Store(registries, total, pending)
    }

    predicate Valid()
      reads this
    {
      Inv(Model())
    }

    constructor ()
      ensures Valid() && Model() == EmptyStore
    {
      registries := map[];
      total := 0;
      pending := 0;
    }

    method Load(kind: AssetKind, path: string, name: string)
      requires Valid()
      modifies this
      ensures Valid()
      ensures Model() == StoreLoad(old(Model()), kind, path, name)
    {
      var registry := if kind in registries then registries[kind] else Empty();
      registries := registries[kind := LoadStep(registry, path, name)];
      pending := pending + 1;
      total := total + 1;
      LoadKeepsInv(old(Model()), kind, path, name);
    }

    function Get(kind: AssetKind, name: string): Option<Asset<AssetData>>
      reads this
    {
      GetAsset(Model(), kind, name)
    }

    function Pending(): nat
      reads this
    {
      pending
    }

    function Total(): nat
      reads this
    {
      total
    }

    function Loaded(): nat
      requires pending <= total
      reads this
    {
      total - pending
    }

    /** One turn of `poll`'s loop: poll the registry of kind `k`, and count down `pending` if it reported an event. */
    method PollRegistry(k: AssetKind, event: Option<LoaderEvent>, codecs: Codecs) returns (fired: bool)
      requires k in registries
      requires PollStep(registries[k], event, Decoder(k, codecs)).1.Some? ==> pending >= 1
      modifies this
      ensures registries == old(registries)[k := PollStep(old(registries)[k], event, Decoder(k, codecs)).0]
      ensures fired <==> PollStep(old(registries)[k], event, Decoder(k, codecs)).1.Some?
      ensures pending == old(pending) - (if fired then 1 else 0) && total == old(total)
    {
      var polled := PollStep(registries[k], event, Decoder(k, codecs));
      registries := registries[k := polled.0];
      fired := polled.1.Some?;
      if fired {
        pending := pending - 1;
      }
    }

    /** `poll`, given what each registry's backend returns this frame. */
    method Poll(events: AssetKind -> Option<LoaderEvent>, codecs: Codecs)
      requires Valid()
      modifies this
      ensures Valid()
      ensures Model() == StorePoll(old(Model()), events, codecs)
    {
      ghost var regs := registries;
      var todo := registries.Keys;
      ghost var done: set<AssetKind> := {};
      while todo != {}
        invariant todo + done == regs.Keys && todo !! done
        invariant total == old(total)
        invariant PartlyPolled(registries, regs, events, codecs, done)
        invariant pending + FiredAmong(regs, events, codecs, done) == old(pending)
        decreases todo
      {
        var k :| k in todo;
        FiredAmongAddOne(regs, events, codecs, done, k);
        FiredAmongAtMostOutstanding(regs, events, codecs, done + {k});
        PartlyPolledStep(registries, regs, events, codecs, done, k);
        var fired := PollRegistry(k, events(k), codecs);
        todo := todo - {k};
        done := done + {k};
      }
      FiredAmongAll(regs, events, codecs, done);
      PolledEverywhere(registries, regs, events, codecs, done);
      ghost var expected := StorePoll(old(Model()), events, codecs);
      assert Model() == expected;
    }
  }
}
