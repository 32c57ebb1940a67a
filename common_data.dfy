/**
 * The shared dataframe registry (src/common_data.rs): a list of
 * `(DataFrameInfo, Option<DataFrame>)` entries, the filesystem cache and the
 * one load slot `hello_promise`, tagged with the index of the entry the load
 * was issued for. `update` runs once per frame: it adopts the default path,
 * copies a finished load into its entry, and issues a load for every entry in
 * `LoadNow`, moving it to `Loading`.
 */
module CommonData {
  import opened Wrappers
  import opened BackendTalk
  import MW = ModalWindow
  import RustPath
  import FsCache

  type Entry = (MW.DataFrameInfo, Option<DataFrame>)

  type LoadSlot = Option<(nat, Promise<DataFrame>)>

  datatype State = State(dataframes: seq<Entry>, paths: FsCache.Paths, helloPromise: LoadSlot)

  /** `CommonData::default`. */
  function Default(): (s: State)
    ensures s.dataframes == [] && s.helloPromise.None?
    ensures s.paths == FsCache.Startup()
  {
    State([], FsCache.Startup(), None)
  }

  predicate LoadReady(hello: LoadSlot) {
    hello.Some? && hello.value.1.poll.Ready? && hello.value.1.poll.result.Success?
  }

  /**
   * The load-result commit: a successful load lands in the entry its slot
   * names; an index outside the list writes nothing. The slot is kept.
   */
  function CommitLoad(d: seq<Entry>, hello: LoadSlot): (r: seq<Entry>)
    ensures |r| == |d|
    ensures forall j :: 0 <= j < |d| ==> r[j].0 == d[j].0
    ensures forall j :: 0 <= j < |d| ==>
      r[j].1 == if LoadReady(hello) && hello.value.0 == j then Some(hello.value.1.poll.result.value) else d[j].1
    ensures !LoadReady(hello) || hello.value.0 >= |d| ==> r == d
  {
    if LoadReady(hello) && hello.value.0 < |d| then
      var idx := hello.value.0;
      d[idx := (d[idx].0, Some(hello.value.1.poll.result.value))]
    else d
  }

  /** Committing the same ready load twice is committing it once. */
  lemma {:induction false} CommitLoadIdempotent(d: seq<Entry>, hello: LoadSlot)
    ensures CommitLoad(CommitLoad(d, hello), hello) == CommitLoad(d, hello)
  {
    var once := CommitLoad(d, hello);
    var twice := CommitLoad(once, hello);
    assert |twice| == |once|;
    forall j | 0 <= j < |once| ensures twice[j] == once[j] {
    }
  }

  /** The state a dispatched entry is left in. */
  function Settled(s: MW.LoadState): MW.LoadState {
    if s == MW.LoadNow then MW.Loading else s
  }

  datatype Dispatch = Dispatch(dataframes: seq<Entry>, hello: LoadSlot, panicked: bool)

  /**
   * The dispatch loop from entry `i` on: each `LoadNow` entry gets a load
   * request in the slot (overwriting the previous one) and moves to
   * `Loading`. `get_filename` on its path comes first and panics when the
   * path has no file name.
   */
  function DispatchFrom(d: seq<Entry>, hello: LoadSlot, i: nat): Dispatch
    requires i <= |d|
    decreases |d| - i
  {
    if i == |d| then Dispatch(d, hello, false)
    else if d[i].0.loadState == MW.LoadNow then
      if RustPath.FileName(d[i].0.filepath).None? then Dispatch(d, hello, true)
      else
        var info := d[i].0;
        DispatchFrom(d[i := (info.(loadState := MW.Loading), d[i].1)],
                     Some((i, RequestFor(d[i]))), i + 1)
    else DispatchFrom(d, hello, i + 1)
  }

  /** The highest index of an entry in `LoadNow`. */
  function LastLoadNow(s: seq<Entry>): (r: Option<nat>)
    ensures r.Some? ==> r.value < |s| && s[r.value].0.loadState == MW.LoadNow
    ensures r.Some? ==> forall j :: r.value < j < |s| ==> s[j].0.loadState != MW.LoadNow
    ensures r.None? ==> forall j :: 0 <= j < |s| ==> s[j].0.loadState != MW.LoadNow
  {
    if s == [] then None
    else match LastLoadNow(s[1..])
      case Some(k) => Some(k + 1)
      case None => if s[0].0.loadState == MW.LoadNow then Some(0) else None
  }

  predicate Unnamed(e: Entry) {
    RustPath.FileName(e.0.filepath).None?
  }

  /** Dispatch keeps the entry count, payloads, paths and types, and settles every state from `i` on. */
  lemma {:induction false} DispatchSettles(d: seq<Entry>, hello: LoadSlot, i: nat)
    requires i <= |d|
    ensures |DispatchFrom(d, hello, i).dataframes| == |d|
    ensures forall j :: 0 <= j < |d| ==>
      var e := DispatchFrom(d, hello, i).dataframes[j];
      e.1 == d[j].1 && e.0.filepath == d[j].0.filepath && e.0.dfType == d[j].0.dfType
    ensures forall j :: 0 <= j < i ==> DispatchFrom(d, hello, i).dataframes[j] == d[j]
    ensures !DispatchFrom(d, hello, i).panicked ==> forall j :: i <= j < |d| ==>
      DispatchFrom(d, hello, i).dataframes[j].0.loadState == Settled(d[j].0.loadState)
    decreases |d| - i
  {
    if i < |d| && d[i].0.loadState == MW.LoadNow && !Unnamed(d[i]) {
      var info := d[i].0;
      DispatchSettles(d[i := (info.(loadState := MW.Loading), d[i].1)],
                      Some((i, RequestFor(d[i]))), i + 1);
    } else if i < |d| && d[i].0.loadState != MW.LoadNow {
      DispatchSettles(d, hello, i + 1);
    }
  }

  /** Dispatch panics exactly when some entry from `i` on is in `LoadNow` with a path that has no file name. */
  lemma {:induction false} DispatchPanics(d: seq<Entry>, hello: LoadSlot, i: nat)
    requires i <= |d|
    ensures DispatchFrom(d, hello, i).panicked <==>
      exists j :: i <= j < |d| && d[j].0.loadState == MW.LoadNow && Unnamed(d[j])
    decreases |d| - i
  {
    if i < |d| && d[i].0.loadState == MW.LoadNow && !Unnamed(d[i]) {
      var info := d[i].0;
      var d' := d[i := (info.(loadState := MW.Loading), d[i].1)];
      DispatchPanics(d', Some((i, RequestFor(d[i]))), i + 1);
      assert forall j :: i < j < |d| ==> d'[j] == d[j];
    } else if i < |d| && d[i].0.loadState != MW.LoadNow {
      DispatchPanics(d, hello, i + 1);
    }
  }

  /** The request a `LoadNow` entry is dispatched with. */
  function RequestFor(e: Entry): Promise<DataFrame> {
    LoadDfRequest(e.0.filepath, e.0.dfType)
  }

  /** The slot after dispatching from `i`: the last `LoadNow` entry's request, or `hello` when there is none. */
  function LastRequest(d: seq<Entry>, hello: LoadSlot, i: nat): LoadSlot
    requires i <= |d|
  {
    var last := LastLoadNow(d[i..]);
    if last.None? then hello else Some((i + last.value, RequestFor(d[i + last.value])))
  }

  /** The slot ends up holding the request of the last `LoadNow` entry from `i` on, or is untouched when there is none. */
  lemma {:induction false} DispatchTagsLastLoad(d: seq<Entry>, hello: LoadSlot, i: nat)
    requires i <= |d|
    ensures !DispatchFrom(d, hello, i).panicked ==> DispatchFrom(d, hello, i).hello == LastRequest(d, hello, i)
    decreases |d| - i
  {
    if i < |d| {
      assert d[i..][1..] == d[i + 1..];
      var tail := LastLoadNow(d[i + 1..]);
      if d[i].0.loadState == MW.LoadNow && !Unnamed(d[i]) {
        var info := d[i].0;
        var d' := d[i := (info.(loadState := MW.Loading), d[i].1)];
        var h' := Some((i, RequestFor(d[i])));
        DispatchTagsLastLoad(d', h', i + 1);
        assert d'[i + 1..] == d[i + 1..];
        if tail.Some? {
          assert LastLoadNow(d[i..]) == Some(tail.value + 1);
          assert d'[i + 1 + tail.value] == d[i + 1 + tail.value];
        } else {
          assert LastLoadNow(d[i..]) == Some(0);
        }
      } else if d[i].0.loadState != MW.LoadNow {
        DispatchTagsLastLoad(d, hello, i + 1);
        if tail.Some? {
          assert LastLoadNow(d[i..]) == Some(tail.value + 1);
        } else {
          assert LastLoadNow(d[i..]) == None;
        }
      }
    }
  }

  /** With no entry in `LoadNow` from `i` on, dispatch changes nothing. */
  lemma {:induction false} DispatchIdle(d: seq<Entry>, hello: LoadSlot, i: nat)
    requires i <= |d|
    requires forall j :: i <= j < |d| ==> d[j].0.loadState != MW.LoadNow
    ensures DispatchFrom(d, hello, i) == Dispatch(d, hello, false)
    decreases |d| - i
  {
    if i < |d| {
      DispatchIdle(d, hello, i + 1);
    }
  }

  datatype Outcome = Outcome(state: State, panicked: bool)

  /** `CommonData::update`. A panic leaves the state as it was when the panic struck. */
  function UpdateStep(s: State): Outcome {
    match FsCache.ResolveDefaultPath(s.paths)
    case None => Outcome(s, true)
    case Some(paths) =>
      var r := DispatchFrom(CommitLoad(s.dataframes, s.helloPromise), s.helloPromise, 0);
      Outcome(State(r.dataframes, paths, r.hello), r.panicked)
  }

  /** `update` panics exactly on a failed default-path call or a `LoadNow` entry whose path has no file name. */
  lemma UpdatePanics(s: State)
    ensures UpdateStep(s).panicked <==>
      FsCache.DefaultPathFailed(s.paths) ||
      exists j :: 0 <= j < |s.dataframes| && s.dataframes[j].0.loadState == MW.LoadNow && Unnamed(s.dataframes[j])
  {
    var d := CommitLoad(s.dataframes, s.helloPromise);
    DispatchPanics(d, s.helloPromise, 0);
    assert forall j :: 0 <= j < |d| ==> d[j].0 == s.dataframes[j].0;
  }

  /**
   * After `update`: no entry is in `LoadNow`, every entry that was is
   * `Loading`, every other state is unchanged (so `Loaded` and
   * `OpenModalWindow` are never produced), the entry count, paths and types
   * are kept, and the payloads are those of the load commit.
   */
  lemma UpdateSettlesEntries(s: State)
    requires !UpdateStep(s).panicked
    ensures |UpdateStep(s).state.dataframes| == |s.dataframes|
    ensures forall j :: 0 <= j < |s.dataframes| ==>
      var (was, now) := (s.dataframes[j], UpdateStep(s).state.dataframes[j]);
      && now.0.loadState != MW.LoadNow
      && (was.0.loadState == MW.LoadNow ==> now.0.loadState == MW.Loading)
      && (was.0.loadState != MW.LoadNow ==> now.0.loadState == was.0.loadState)
      && now.0.filepath == was.0.filepath && now.0.dfType == was.0.dfType
      && now.1 == CommitLoad(s.dataframes, s.helloPromise)[j].1
  {
    var d := CommitLoad(s.dataframes, s.helloPromise);
    DispatchSettles(d, s.helloPromise, 0);
  }

  /**
   * A successful load lands in the entry its slot names and no other payload
   * changes; with a slot index outside the list no payload changes.
   */
  lemma UpdateCommitsLoad(s: State, df: DataFrame)
    requires !UpdateStep(s).panicked
    requires s.helloPromise.Some? && s.helloPromise.value.1.poll == Ready(Success(df))
    ensures |UpdateStep(s).state.dataframes| == |s.dataframes|
    ensures forall j :: 0 <= j < |s.dataframes| ==>
      UpdateStep(s).state.dataframes[j].1 == if j == s.helloPromise.value.0 then Some(df) else s.dataframes[j].1
  {
    UpdateSettlesEntries(s);
  }

  /**
   * The slot ends up tagged with the highest `LoadNow` index and a request
   * for that entry's path and type, overwriting the requests issued for the
   * earlier ones in the same frame; with no `LoadNow` entry it is unchanged.
   */
  lemma UpdateTagsLastLoad(s: State)
    requires !UpdateStep(s).panicked
    ensures UpdateStep(s).state.helloPromise ==
      match LastLoadNow(s.dataframes)
      case None => s.helloPromise
      case Some(k) => Some((k, RequestFor(s.dataframes[k])))
  {
    var d := CommitLoad(s.dataframes, s.helloPromise);
    DispatchTagsLastLoad(d, s.helloPromise, 0);
    assert d[0..] == d;
    assert forall j :: 0 <= j < |d| ==> d[j].0 == s.dataframes[j].0;
    LastLoadNowDependsOnInfos(d, s.dataframes);
  }

  lemma {:induction false} LastLoadNowDependsOnInfos(a: seq<Entry>, b: seq<Entry>)
    requires |a| == |b| && forall j :: 0 <= j < |a| ==> a[j].0 == b[j].0
    ensures LastLoadNow(a) == LastLoadNow(b)
  {
    if a != [] {
      LastLoadNowDependsOnInfos(a[1..], b[1..]);
    }
  }

  /** The default path is adopted as the step in `FsCache` describes. */
  lemma UpdateAdoptsDefaultPath(s: State)
    requires !UpdateStep(s).panicked
    ensures UpdateStep(s).state.paths == FsCache.ResolveDefaultPath(s.paths).value
  {
  }

  /**
   * The load slot is not cleared on completion, yet running `update` again
   * in the same frame state changes nothing: the whole step is idempotent.
   */
  lemma UpdateIdempotent(s: State)
    requires !UpdateStep(s).panicked
    ensures UpdateStep(UpdateStep(s).state) == UpdateStep(s)
  {
    var s1 := UpdateStep(s).state;
    FsCache.ResolveSettles(s.paths);
    UpdateSettlesEntries(s);
    var d := CommitLoad(s.dataframes, s.helloPromise);
    DispatchTagsLastLoad(d, s.helloPromise, 0);
    assert d[0..] == d;
    var d1 := CommitLoad(s1.dataframes, s1.helloPromise);
    if LastLoadNow(d).Some? {
      assert !LoadReady(s1.helloPromise);
      assert d1 == s1.dataframes;
    } else {
      DispatchIdle(d, s.helloPromise, 0);
      assert s1.dataframes == d && s1.helloPromise == s.helloPromise;
      CommitLoadIdempotent(s.dataframes, s.helloPromise);
    }
    DispatchIdle(d1, s1.helloPromise, 0);
  }

  /** The shared registry, updated in place once per frame. */
  class CommonData {
    var dataframes: seq<Entry>
    var currentPath: string
    var defaultPath: string
    var fsListPromise: Option<Promise<ListResponse>>
    var helloPromise: LoadSlot
    var dPathPromise: Option<Promise<PathMessage>>

    function Paths(): FsCache.Paths
      reads this
    {
      FsCache.Paths(currentPath, defaultPath, fsListPromise, dPathPromise)
    }

    function Model(): State
      reads this
    {
      State(dataframes, Paths(), helloPromise)
    }

    constructor ()
      ensures Model() == Default()
      ensures currentPath == "/" && defaultPath == "/" && dataframes == [] && helloPromise.None?
    {
      var path := "/";
      fsListPromise := Some(RequestList(path));
      dPathPromise := Some(RequestDefaultPath());
      dataframes := [];
      currentPath := path;
      defaultPath := path;
      helloPromise := None;
    }

    /** `CommonData::update`; `panicked` reports the panic of one of its `unwrap`s. */
    method Update() returns (panicked: bool)
      modifies this
      ensures Outcome(Model(), panicked) == UpdateStep(old(Model()))
    {
      if dPathPromise.Some? && dPathPromise.value.poll.Ready? {
        var result := dPathPromise.value.poll.result;
        if result.Failure? {
          return true;
        }
        var dPath := result.value.path;
        currentPath := dPath;
        defaultPath := dPath;
        fsListPromise := Some(RequestList(dPath));
        dPathPromise := None;
      }

      if helloPromise.Some? {
        var (idx, result) := helloPromise.value;
        if result.poll.Ready? && result.poll.result.Success? {
          if idx < |dataframes| {
            dataframes := dataframes[idx := (dataframes[idx].0, Some(result.poll.result.value))];
          }
        }
      }

      ghost var committed := dataframes;
      ghost var slot := helloPromise;
      var idx := 0;
      while idx < |dataframes|
        invariant 0 <= idx <= |dataframes|
        invariant DispatchFrom(dataframes, helloPromise, idx) == DispatchFrom(committed, slot, 0)
        invariant Paths() == FsCache.ResolveDefaultPath(old(Paths())).value
      {
        var dfInfo := dataframes[idx].0;
        if dfInfo.loadState == MW.LoadNow {
          var name := MW.GetFilename(dfInfo.filepath);
          if name.None? {
            return true;
          }
          helloPromise := Some((idx, RequestFor(dataframes[idx])));
          dataframes := dataframes[idx := (dfInfo.(loadState := MW.Loading), dataframes[idx].1)];
        }
        idx := idx + 1;
      }
      panicked := false;
    }
  }
}
