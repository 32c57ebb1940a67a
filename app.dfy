/**
 * The older single-window app state (src/app.rs). It keeps its own copy of
 * the filesystem cache, a pick-file / confirm-load dialog, a map of loaded
 * frames by file name and one load slot tagged with that name. Its load call
 * predates the typed `load_df_request` and passes the path alone; it is
 * modelled as written.
 */
module App {
  import opened Wrappers
  import opened BackendTalk
  import StrOrder
  import RustPath
  import FsCache
  import Plotter2D

  /** The app's own two-valued type choice, distinct from the dialog module's. */
  datatype AppDataFrameType = Ndev | Kitti

  datatype AppTab = Filesystem | Dataframe

  type LoadSlot = Option<(string, Promise<DataFrame>)>

  datatype AppState = AppState(
    organized: bool,
    modalWindowOpen: bool,
    dataframeType: Option<AppDataFrameType>,
    filepathToBeLoaded: Option<string>,
    explorerTab: AppTab,
    dataframes: map<string, DataFrame>,
    helloPromise: LoadSlot,
    paths: FsCache.Paths)

  /** `TemplateApp::default`. */
  function Default(): (s: AppState)
    ensures s.paths.currentPath == "/" && s.paths.defaultPath == "/"
    ensures !s.modalWindowOpen && s.filepathToBeLoaded.None? && s.dataframeType.None?
    ensures s.helloPromise.None? && s.dataframes == map[] && !s.organized && s.explorerTab == Filesystem
    ensures s.paths == FsCache.Startup()
  {
    AppState(false, false, None, None, Filesystem, map[], None, FsCache.Startup())
  }

  /** The one-argument load call: the request carries the path and no type. */
  function UntypedLoadDfRequest(filepath: string): (p: Promise<DataFrame>)
    ensures p.poll.Pending? && p.request == UntypedLoadRequest(filepath)
  {
    Promise(UntypedLoadRequest(filepath), Pending)
  }

  /** The fields `save` persists; the promises and the backend are skipped. */
  datatype Persisted = Persisted(
    organized: bool,
    modalWindowOpen: bool,
    dataframeType: Option<AppDataFrameType>,
    filepathToBeLoaded: Option<string>,
    explorerTab: AppTab,
    dataframes: map<string, DataFrame>,
    currentPath: string,
    defaultPath: string)

  function Persist(s: AppState): Persisted {
    Persisted(s.organized, s.modalWindowOpen, s.dataframeType, s.filepathToBeLoaded, s.explorerTab,
              s.dataframes, s.paths.currentPath, s.paths.defaultPath)
  }

  /** What `save` stores: the state with the current path replaced by the default one. */
  function SaveSnapshot(s: AppState): (p: Persisted)
    ensures p.currentPath == p.defaultPath == s.paths.defaultPath
    ensures p == Persist(s).(currentPath := s.paths.defaultPath)
  {
    Persist(s.(paths := s.paths.(currentPath := s.paths.defaultPath)))
  }

  // ---------------------------------------------------------------------------
  // The dialog
  // ---------------------------------------------------------------------------

  datatype ModalInput = ModalInput(ndevClicked: bool, kittiClicked: bool, loadFileClicked: bool)

  /**
   * The pick-file dialog, when open: it labels itself with the pending file's
   * name (the `unwrap` panics when the path has none; `None` here), the
   * radios set the type, and "Load File" with a pending file records the load
   * under that name, clears the file and closes the dialog.
   */
  function ModalStep(s: AppState, input: ModalInput): (r: Option<AppState>)
    ensures r.None? <==> s.modalWindowOpen && s.filepathToBeLoaded.Some? &&
                         RustPath.FileName(s.filepathToBeLoaded.value).None?
    ensures !s.modalWindowOpen ==> r == Some(s)
    ensures r.Some? && s.modalWindowOpen && input.loadFileClicked && s.filepathToBeLoaded.Some? ==>
      var fp := s.filepathToBeLoaded.value;
      && r.value.helloPromise == Some((RustPath.FileName(fp).value, UntypedLoadDfRequest(fp)))
      && r.value.filepathToBeLoaded.None? && !r.value.modalWindowOpen
    ensures r.Some? && !(input.loadFileClicked && s.filepathToBeLoaded.Some?) ==>
      r.value.helloPromise == s.helloPromise && r.value.filepathToBeLoaded == s.filepathToBeLoaded &&
      r.value.modalWindowOpen == s.modalWindowOpen
    ensures r.Some? ==> r.value.dataframes == s.dataframes && r.value.paths == s.paths
    ensures r.Some? ==> r.value.organized == s.organized && r.value.explorerTab == s.explorerTab
    ensures r.Some? && s.modalWindowOpen ==>
      r.value.dataframeType == if input.kittiClicked then Some(Kitti) else if input.ndevClicked then Some(Ndev) else s.dataframeType
  {
    if !s.modalWindowOpen then Some(s)
    else if s.filepathToBeLoaded.Some? && RustPath.FileName(s.filepathToBeLoaded.value).None? then None
    else
      var dfname := if s.filepathToBeLoaded.Some? then RustPath.FileName(s.filepathToBeLoaded.value).value else "null";
      var t := if input.kittiClicked then Some(Kitti) else if input.ndevClicked then Some(Ndev) else s.dataframeType;
      if input.loadFileClicked && s.filepathToBeLoaded.Some? then
        Some(s.(dataframeType := t,
                helloPromise := Some((dfname, UntypedLoadDfRequest(s.filepathToBeLoaded.value))),
                filepathToBeLoaded := None,
                modalWindowOpen := false))
      else Some(s.(dataframeType := t))
  }

  /** The radios set the type (KITTI after NDEV in the same frame wins), and nothing but the type. */
  lemma ModalRadiosSetType(s: AppState, input: ModalInput)
    requires s.modalWindowOpen && ModalStep(s, input).Some? && !input.loadFileClicked
    ensures ModalStep(s, input).value ==
      s.(dataframeType := if input.kittiClicked then Some(Kitti) else if input.ndevClicked then Some(Ndev) else s.dataframeType)
  {
  }

  /**
   * "Load File" with a named pending file: the radios set the type, the load
   * is recorded under the file name, the file is cleared and the dialog
   * closes; nothing else changes.
   */
  lemma ModalLoadFile(s: AppState, input: ModalInput)
    requires s.modalWindowOpen && input.loadFileClicked && ModalStep(s, input).Some?
    requires s.filepathToBeLoaded.Some?
    ensures var fp := s.filepathToBeLoaded.value;
      ModalStep(s, input).value ==
        s.(dataframeType := if input.kittiClicked then Some(Kitti) else if input.ndevClicked then Some(Ndev) else s.dataframeType,
           helloPromise := Some((RustPath.FileName(fp).value, UntypedLoadDfRequest(fp))),
           filepathToBeLoaded := None,
           modalWindowOpen := false)
  {
  }

  /** The chosen type never reaches the load request: two states that differ only in it record the same load. */
  lemma ModalIgnoresType(s: AppState, input: ModalInput, t: Option<AppDataFrameType>)
    requires ModalStep(s, input).Some?
    ensures ModalStep(s.(dataframeType := t), input).Some?
    ensures ModalStep(s.(dataframeType := t), input).value.helloPromise == ModalStep(s, input).value.helloPromise
  {
  }

  // ---------------------------------------------------------------------------
  // The side panel
  // ---------------------------------------------------------------------------

  datatype PanelInput = PanelInput(
    tabClicked: Option<AppTab>,
    refreshClicked: bool,
    parentDoubleClicked: bool,
    doubleClickedDirs: set<nat>,
    doubleClickedFiles: set<nat>)

  predicate ListingReady(p: Option<Promise<ListResponse>>) {
    p.Some? && p.value.poll.Ready? && p.value.poll.result.Success?
  }

  /** The directory rows from `k` on: each double-click joins that name onto the path of the moment. */
  function EnterDirs(cur: string, dirs: seq<string>, clicks: set<nat>, k: nat): string
    requires k <= |dirs|
    decreases |dirs| - k
  {
    if k == |dirs| then cur
    else EnterDirs(if k in clicks then RustPath.Join(cur, dirs[k]) else cur, dirs, clicks, k + 1)
  }

  /** The file rows from `k` on: each double-click picks that file under `cur`, the last one winning. */
  function PickFiles(cur: string, files: seq<string>, clicks: set<nat>, k: nat, picked: Option<string>): Option<string>
    requires k <= |files|
    decreases |files| - k
  {
    if k == |files| then picked
    else PickFiles(cur, files, clicks, k + 1, if k in clicks then Some(RustPath.Join(cur, files[k])) else picked)
  }

  predicate AnyDirClicked(dirs: seq<string>, clicks: set<nat>, n: nat) {
    exists k :: 0 <= k < n && k < |dirs| && k in clicks
  }

  /**
   * The side panel, inactive while the dialog is open. On the Files tab with
   * a ready listing: ".." joins a literal ".." onto the path, each
   * double-clicked directory is joined on, a double-clicked file opens the
   * dialog on its full path, and a changed path is listed again.
   */
  function PanelStep(s: AppState, input: PanelInput): AppState {
    if s.modalWindowOpen then s
    else
      var tab := if input.tabClicked.Some? then input.tabClicked.value else s.explorerTab;
      if tab != Filesystem then s.(explorerTab := tab)
      else
        var cur := s.paths.currentPath;
        var fs := if input.refreshClicked then Some(RequestList(cur)) else s.paths.fsListPromise;
        if !ListingReady(fs) then s.(explorerTab := tab, paths := s.paths.(fsListPromise := fs))
        else
          var l := fs.value.poll.result.value;
          var afterUp := if input.parentDoubleClicked then RustPath.Join(cur, "..") else cur;
          var path := EnterDirs(afterUp, l.directories, input.doubleClickedDirs, 0);
          var picked := PickFiles(path, StrOrder.Sort(l.files), input.doubleClickedFiles, 0, None);
          var update := input.parentDoubleClicked || AnyDirClicked(l.directories, input.doubleClickedDirs, |l.directories|);
          s.(explorerTab := tab,
             modalWindowOpen := picked.Some?,
             filepathToBeLoaded := if picked.Some? then picked else s.filepathToBeLoaded,
             paths := s.paths.(currentPath := path, fsListPromise := if update then Some(RequestList(path)) else fs))
  }

  lemma {:induction false} EnterNone(cur: string, dirs: seq<string>, clicks: set<nat>, k: nat)
    requires k <= |dirs| && forall j :: k <= j < |dirs| ==> j !in clicks
    ensures EnterDirs(cur, dirs, clicks, k) == cur
    decreases |dirs| - k
  {
    if k < |dirs| {
      EnterNone(cur, dirs, clicks, k + 1);
    }
  }

  lemma {:induction false} PickOne(cur: string, files: seq<string>, target: nat, k: nat, picked: Option<string>)
    requires k <= |files| && target < |files|
    ensures PickFiles(cur, files, {target}, k, picked) ==
      if k <= target then Some(RustPath.Join(cur, files[target])) else picked
    decreases |files| - k
  {
    if k < |files| {
      PickOne(cur, files, target, k + 1, if k in {target} then Some(RustPath.Join(cur, files[k])) else picked);
    }
  }

  lemma {:induction false} PickNone(cur: string, files: seq<string>, k: nat, picked: Option<string>)
    requires k <= |files|
    ensures PickFiles(cur, files, {}, k, picked) == picked
    decreases |files| - k
  {
    if k < |files| {
      PickNone(cur, files, k + 1, picked);
    }
  }

  predicate ShowsListing(s: AppState, input: PanelInput) {
    && !s.modalWindowOpen && !input.refreshClicked
    && (if input.tabClicked.Some? then input.tabClicked.value else s.explorerTab) == Filesystem
    && ListingReady(s.paths.fsListPromise)
  }

  /** Double-clicking one file opens the dialog on the file's full path and leaves the path alone. */
  lemma PanelPicksFile(s: AppState, input: PanelInput, k: nat)
    requires ShowsListing(s, input) && !input.parentDoubleClicked && input.doubleClickedDirs == {}
    requires k < |s.paths.fsListPromise.value.poll.result.value.files| && input.doubleClickedFiles == {k}
    ensures var after := PanelStep(s, input);
      var files := StrOrder.Sort(s.paths.fsListPromise.value.poll.result.value.files);
      && after.modalWindowOpen
      && after.filepathToBeLoaded == Some(RustPath.Join(s.paths.currentPath, files[k]))
      && after.paths == s.paths
  {
    var l := s.paths.fsListPromise.value.poll.result.value;
    EnterNone(s.paths.currentPath, l.directories, {}, 0);
    PickOne(s.paths.currentPath, StrOrder.Sort(l.files), k, 0, None);
  }

  /**
   * ".." joins a literal ".." component instead of taking the parent: the
   * new path is longer than the old one, so it is never the parent, and it
   * has no file name. The listing is requested for it.
   */
  lemma PanelDotDotJoinsLiteral(s: AppState, input: PanelInput)
    requires ShowsListing(s, input) && input.parentDoubleClicked && input.doubleClickedDirs == {}
    ensures var after := PanelStep(s, input).paths;
      var cur := s.paths.currentPath;
      && after.currentPath == RustPath.Join(cur, "..")
      && |after.currentPath| > |cur|
      && (RustPath.Parent(cur).Some? ==> after.currentPath != RustPath.Parent(cur).value)
      && RustPath.FileName(after.currentPath).None?
      && after.fsListPromise == Some(RequestList(after.currentPath))
  {
    var l := s.paths.fsListPromise.value.poll.result.value;
    EnterNone(RustPath.Join(s.paths.currentPath, ".."), l.directories, {}, 0);
    RustPath.ParentIsShorterPrefix(s.paths.currentPath);
    RustPath.FileNameOfDotDotJoin(s.paths.currentPath);
  }

  /** With no clicks on a ready listing the panel changes nothing; while the dialog is open it changes nothing at all. */
  lemma PanelIdle(s: AppState, input: PanelInput)
    ensures s.modalWindowOpen ==> PanelStep(s, input) == s
    ensures (ShowsListing(s, input) && input.tabClicked.None? && !input.parentDoubleClicked &&
             input.doubleClickedDirs == {} && input.doubleClickedFiles == {}) ==> PanelStep(s, input) == s
  {
    if ShowsListing(s, input) && input.tabClicked.None? && !input.parentDoubleClicked &&
       input.doubleClickedDirs == {} && input.doubleClickedFiles == {} {
      var l := s.paths.fsListPromise.value.poll.result.value;
      EnterNone(s.paths.currentPath, l.directories, {}, 0);
      PickNone(s.paths.currentPath, StrOrder.Sort(l.files), 0, None);
    }
  }

  // ---------------------------------------------------------------------------
  // The table and the plot
  // ---------------------------------------------------------------------------

  predicate LoadReady(slot: LoadSlot) {
    slot.Some? && slot.value.1.poll.Ready? && slot.value.1.poll.result.Success?
  }

  /** The table window: a successful load is inserted under its file name. */
  function CommitLoad(s: AppState): AppState {
    if LoadReady(s.helloPromise) then
      s.(dataframes := s.dataframes[s.helloPromise.value.0 := s.helloPromise.value.1.poll.result.value])
    else s
  }

  /** The insert lands the loaded frame under its name, and repeating it each frame changes nothing more. */
  lemma CommitLoadSpec(s: AppState)
    ensures LoadReady(s.helloPromise) ==>
      var name := s.helloPromise.value.0;
      && name in CommitLoad(s).dataframes
      && CommitLoad(s).dataframes[name] == s.helloPromise.value.1.poll.result.value
      && (forall n :: n in s.dataframes && n != name ==> n in CommitLoad(s).dataframes && CommitLoad(s).dataframes[n] == s.dataframes[n])
      && CommitLoad(s).dataframes.Keys == s.dataframes.Keys + {name}
    ensures !LoadReady(s.helloPromise) ==> CommitLoad(s) == s
    ensures CommitLoad(CommitLoad(s)) == CommitLoad(s)
    ensures CommitLoad(s).(dataframes := s.dataframes) == s
  {
  }

  /** The plot: the sine fallback while no load is ready, the loaded frame's points, or a panic. */
  datatype PlotOutcome = Wave | Points(points: seq<(real, real)>) | PlotPanic

  /**
   * A ready load is plotted as `column_4` against `column_8`; a failed load
   * and each missing column panic on their `unwrap`, and so does a `column_8`
   * shorter than `column_4`.
   */
  function PlotStep(slot: LoadSlot): (r: PlotOutcome)
    ensures (slot.None? || slot.value.1.poll.Pending?) <==> r == Wave
    ensures r.Points? ==> LoadReady(slot)
    ensures r.Points? ==>
      var df := slot.value.1.poll.result.value;
      && "column_4" in df.columns && "column_8" in df.columns
      && Some(r.points) == Plotter2D.Pair(df.columns["column_4"], df.columns["column_8"])
  {
    match slot
    case None => Wave
    case Some((_, p)) =>
      if p.poll.Pending? then Wave
      else if p.poll.result.Failure? then PlotPanic
      else
        var df := p.poll.result.value;
        if "column_4" !in df.columns || "column_8" !in df.columns then PlotPanic
        else match Plotter2D.Pair(df.columns["column_4"], df.columns["column_8"])
          case None => PlotPanic
          case Some(points) => Points(points)
  }

  /** A ready load panics the plot exactly when it failed, lacks a column, or `column_8` is the shorter. */
  lemma PlotPanics(slot: LoadSlot)
    requires slot.Some? && slot.value.1.poll.Ready?
    ensures var res := slot.value.1.poll.result;
      PlotStep(slot).PlotPanic? <==>
        res.Failure? || "column_4" !in res.value.columns || "column_8" !in res.value.columns ||
        |res.value.columns["column_8"]| < |res.value.columns["column_4"]|
  {
  }

  // ---------------------------------------------------------------------------
  // One frame
  // ---------------------------------------------------------------------------

  datatype AppInput = AppInput(modal: ModalInput, panel: PanelInput)

  datatype Outcome = Outcome(state: AppState, plot: PlotOutcome, panicked: bool)

  /** `TemplateApp::update`: default path, dialog, side panel, table, plot, then the one-time layout reset. */
  function UpdateStep(s: AppState, input: AppInput): Outcome {
    match FsCache.ResolveDefaultPath(s.paths)
    case None => Outcome(s, Wave, true)
    case Some(paths) =>
      var s1 := s.(paths := paths);
      match ModalStep(s1, input.modal)
      case None => Outcome(s1, Wave, true)
      case Some(s2) =>
        var s3 := CommitLoad(PanelStep(s2, input.panel));
        var plot := PlotStep(s3.helloPromise);
        if plot.PlotPanic? then Outcome(s3, plot, true)
        else Outcome(s3.(organized := true), plot, false)
  }

  /**
   * A frame panics exactly on a failed default-path call, an unnamed pending
   * file under the open dialog, or a plot `unwrap`; otherwise the windows
   * are marked organized.
   */
  lemma UpdatePanics(s: AppState, input: AppInput)
    ensures FsCache.DefaultPathFailed(s.paths) ==> UpdateStep(s, input).panicked
    ensures !FsCache.DefaultPathFailed(s.paths) ==>
      var s1 := s.(paths := FsCache.ResolveDefaultPath(s.paths).value);
      (UpdateStep(s, input).panicked <==>
        ModalStep(s1, input.modal).None? ||
        PlotStep(PanelStep(ModalStep(s1, input.modal).value, input.panel).helloPromise).PlotPanic?)
    ensures !UpdateStep(s, input).panicked ==> UpdateStep(s, input).state.organized
  {
  }

  /** "Load File" in one frame puts a pending untyped request for the picked path in the slot, under the file's name. */
  lemma UpdateLoadsPickedFile(s: AppState, input: AppInput, fp: string)
    requires !FsCache.DefaultPathFailed(s.paths) && s.modalWindowOpen
    requires s.filepathToBeLoaded == Some(fp) && RustPath.FileName(fp).Some? && input.modal.loadFileClicked
    ensures var r := UpdateStep(s, input);
      && !r.panicked && r.plot == Wave
      && r.state.helloPromise == Some((RustPath.FileName(fp).value, UntypedLoadDfRequest(fp)))
      && (r.state.filepathToBeLoaded.None? || r.state.modalWindowOpen)
  {
    var s1 := s.(paths := FsCache.ResolveDefaultPath(s.paths).value);
    var s2 := ModalStep(s1, input.modal).value;
    assert PanelStep(s2, input.panel).helloPromise == s2.helloPromise;
  }

  /** The app's state, updated in place once per frame. */
  class TemplateApp {
    var organized: bool
    var modalWindowOpen: bool
    var dataframeType: Option<AppDataFrameType>
    var filepathToBeLoaded: Option<string>
    var explorerTab: AppTab
    var dataframes: map<string, DataFrame>
    var helloPromise: LoadSlot
    var currentPath: string
    var defaultPath: string
    var dPathPromise: Option<Promise<PathMessage>>
    var fsListPromise: Option<Promise<ListResponse>>

    function Model(): AppState
      reads this
    {
      AppState(organized, modalWindowOpen, dataframeType, filepathToBeLoaded, explorerTab, dataframes, helloPromise,
               FsCache.Paths(currentPath, defaultPath, fsListPromise, dPathPromise))
    }

    constructor ()
      ensures Model() == Default()
    {
      var path := "/";
      dPathPromise := Some(RequestDefaultPath());
      fsListPromise := Some(RequestList(path));
      organized := false;
      modalWindowOpen := false;
      dataframeType := None;
      filepathToBeLoaded := None;
      explorerTab := Filesystem;
      dataframes := map[];
      helloPromise := None;
      currentPath := path;
      defaultPath := path;
    }

    /** `save`: the current path is swapped for the default one while persisting, then restored. */
    method Save() returns (stored: Persisted)
      modifies this
      ensures stored == SaveSnapshot(old(Model()))
      ensures Model() == old(Model())
    {
      var current := currentPath;
      currentPath := defaultPath;
      stored := Persist(Model());
      currentPath := current;
    }

    method ResolveDefaultPath() returns (panicked: bool)
      modifies this
      ensures var r := FsCache.ResolveDefaultPath(old(Model()).paths);
        panicked == r.None? && (!panicked ==> Model() == old(Model()).(paths := r.value))
    {
      if dPathPromise.Some? && dPathPromise.value.poll.Ready? {
        var result := dPathPromise.value.poll.result;
        if result.Failure? {
          return true;
        }
        var dPath := result.value.path;
        currentPath := dPath;
        defaultPath := dPath;
        fsListPromise := Some(RequestList(dPath));
        dPathPromise := None;
      }
      panicked := false;
    }

    method ShowModal(input: ModalInput) returns (panicked: bool)
      modifies this
      ensures var r := ModalStep(old(Model()), input);
        panicked == r.None? && (!panicked ==> Model() == r.value)
    {
      if !modalWindowOpen {
        return false;
      }
      var dfname := "null";
      if filepathToBeLoaded.Some? {
        var name := RustPath.FileName(filepathToBeLoaded.value);
        if name.None? {
          return true;
        }
        dfname := name.value;
      }
      if input.ndevClicked {
        dataframeType := Some(Ndev);
      }
      if input.kittiClicked {
        dataframeType := Some(Kitti);
      }
      if input.loadFileClicked && filepathToBeLoaded.Some? {
        helloPromise := Some((dfname, UntypedLoadDfRequest(filepathToBeLoaded.value)));
        filepathToBeLoaded := None;
        modalWindowOpen := false;
      }
      panicked := false;
    }

    /** The ".." row and the directory rows; returns whether the path changed hands. */
    method WalkDirs(dirs: seq<string>, input: PanelInput) returns (updateList: bool)
      modifies this
      ensures currentPath == EnterDirs(
        if input.parentDoubleClicked then RustPath.Join(old(currentPath), "..") else old(currentPath),
        dirs, input.doubleClickedDirs, 0)
      ensures updateList == (input.parentDoubleClicked || AnyDirClicked(dirs, input.doubleClickedDirs, |dirs|))
      ensures Model() == old(Model()).(paths := old(Model()).paths.(currentPath := currentPath))
    {
      updateList := false;
      if input.parentDoubleClicked {
        currentPath := RustPath.Join(currentPath, "..");
        updateList := true;
      }
      ghost var start := currentPath;
      var k := 0;
      while k < |dirs|
        invariant 0 <= k <= |dirs|
        invariant EnterDirs(currentPath, dirs, input.doubleClickedDirs, k) == EnterDirs(start, dirs, input.doubleClickedDirs, 0)
        invariant updateList == (input.parentDoubleClicked || AnyDirClicked(dirs, input.doubleClickedDirs, k))
        invariant Model() == old(Model()).(paths := old(Model()).paths.(currentPath := currentPath))
      {
        if k in input.doubleClickedDirs {
          currentPath := RustPath.Join(currentPath, dirs[k]);
          updateList := true;
        }
        k := k + 1;
      }
    }

    /** The sorted file rows: the last double-clicked one opens the dialog on its path. */
    method WalkFiles(fsvec: seq<string>, input: PanelInput)
      modifies this
      ensures var picked := PickFiles(currentPath, fsvec, input.doubleClickedFiles, 0, None);
        Model() == old(Model()).(modalWindowOpen := old(modalWindowOpen) || picked.Some?,
                                 filepathToBeLoaded := if picked.Some? then picked else old(filepathToBeLoaded))
    {
      var picked: Option<string> := None;
      var k := 0;
      while k < |fsvec|
        invariant 0 <= k <= |fsvec|
        invariant PickFiles(currentPath, fsvec, input.doubleClickedFiles, k, picked) ==
                  PickFiles(currentPath, fsvec, input.doubleClickedFiles, 0, None)
        invariant Model() == old(Model())
      {
        if k in input.doubleClickedFiles {
          picked := Some(RustPath.Join(currentPath, fsvec[k]));
        }
        k := k + 1;
      }
      if picked.Some? {
        modalWindowOpen := true;
        filepathToBeLoaded := picked;
      }
    }

    method ShowSidePanel(input: PanelInput)
      modifies this
      ensures Model() == PanelStep(old(Model()), input)
    {
      if modalWindowOpen {
        return;
      }
      if input.tabClicked.Some? {
        explorerTab := input.tabClicked.value;
      }
      if explorerTab != Filesystem {
        return;
      }
      if input.refreshClicked {
        fsListPromise := Some(RequestList(currentPath));
      }
      if !ListingReady(fsListPromise) {
        return;
      }
      var fsList := fsListPromise.value.poll.result.value;
      var fsvec := StrOrder.Sort(fsList.files);
      var updateList := WalkDirs(fsList.directories, input);
      WalkFiles(fsvec, input);
      if updateList {
        fsListPromise := Some(RequestList(currentPath));
      }
    }

    /** The table window's insert. */
    method ShowTable()
      modifies this
      ensures Model() == CommitLoad(old(Model()))
    {
      if helloPromise.Some? {
        var (dfname, result) := helloPromise.value;
        if result.poll.Ready? && result.poll.result.Success? {
          dataframes := dataframes[dfname := result.poll.result.value];
        }
      }
    }

    /** The plot window's points. */
    method PlotPoints() returns (plot: PlotOutcome)
      ensures plot == PlotStep(helloPromise)
    {
      if helloPromise.None? || helloPromise.value.1.poll.Pending? {
        return Wave;
      }
      var result := helloPromise.value.1.poll.result;
      if result.Failure? || "column_4" !in result.value.columns || "column_8" !in result.value.columns {
        return PlotPanic;
      }
      var xs := result.value.columns["column_4"];
      var ys := result.value.columns["column_8"];
      if |ys| < |xs| {
        return PlotPanic;
      }
      var xys: seq<(real, real)> := [];
      var i := 0;
      while i < |xs|
        invariant 0 <= i <= |xs|
        invariant |xys| == i && forall j :: 0 <= j < i ==> xys[j] == (xs[j], ys[j])
      {
        xys := xys + [(xs[i], ys[i])];
        i := i + 1;
      }
      assert Plotter2D.Pair(xs, ys).Some? && xys == Plotter2D.Pair(xs, ys).value;
      plot := Points(xys);
    }

    /** `TemplateApp::update`; `plot` is what the plot window shows. */
    method Update(input: AppInput) returns (panicked: bool, plot: PlotOutcome)
      modifies this
      ensures var r := UpdateStep(old(Model()), input);
        panicked == r.panicked && plot == r.plot && (!panicked ==> Model() == r.state)
    {
      plot := Wave;
      panicked := ResolveDefaultPath();
      if panicked {
        return;
      }
      panicked := ShowModal(input.modal);
      if panicked {
        return;
      }
      ShowSidePanel(input.panel);
      ShowTable();
      plot := PlotPoints();
      if plot.PlotPanic? {
        return true, plot;
      }
      if !organized {
        organized := true;
      }
    }
  }
}
