/**
 * The file explorer (src/components/explorer.rs): a tab, and a map from
 * every listed name to its checkbox state. One `show` per frame keeps the map
 * in step with the listing, navigates to the parent or into a directory,
 * picks a file for the load dialog and counts the checked directories that
 * gate "Load as ROSBAG2".
 */
module Explorer {
  import opened Wrappers
  import opened BackendTalk
  import StrOrder
  import RustPath
  import CD = CommonData

  datatype ExplorerTab = Filesystem | Dataframe | Rosbag

  /** One value of `latest_df_info_map`, as the DataFrames tab reads it: the optional id message and the path. */
  datatype DfInfoRow = DfInfoRow(id: Option<nat>, dfPath: string)

  /**
   * One frame of user input. Checkbox clicks and double-clicks are given by
   * position: directories in listing order, files in sorted order.
   * `dfInfos` is the `latest_df_info_map` the DataFrames tab lists, in
   * iteration order.
   */
  datatype ExplorerInput = ExplorerInput(
    tabClicked: Option<ExplorerTab>,
    refreshClicked: bool,
    parentDoubleClicked: bool,
    toggledDirs: set<nat>,
    doubleClickedDirs: set<nat>,
    toggledFiles: set<nat>,
    doubleClickedFiles: set<nat>,
    rosbagClicked: bool,
    dfInfos: seq<DfInfoRow>)

  predicate Distinct(s: seq<string>) {
    forall i, j :: 0 <= i < j < |s| ==> s[i] != s[j]
  }

  predicate ListingReady(p: Promise<ListResponse>) {
    p.poll.Ready? && p.poll.result.Success?
  }

  /**
   * The checkbox map before the rows are drawn: cleared while the listing is
   * pending, filled with every listed name set to false when the listing is
   * ready and the map empty, and otherwise left as it is.
   */
  function SyncCheckedMap(p: Promise<ListResponse>, m: map<string, bool>): (r: map<string, bool>)
    ensures p.poll.Pending? ==> r == map[]
    ensures ListingReady(p) && m == map[] ==>
      && (forall key :: key in r <==> key in p.poll.result.value.directories || key in p.poll.result.value.files)
      && (forall key :: key in r ==> !r[key])
    ensures p.poll.Ready? && m != map[] ==> r == m
    ensures p.poll.Ready? && p.poll.result.Failure? ==> r == m
  {
    if p.poll.Pending? then map[]
    else if p.poll.result.Success? && m == map[] then
      var l := p.poll.result.value;
      map key | key in l.directories + l.files :: false
    else m
  }

  /** The state of the directory loop. */
  datatype DirScan = DirScan(
    current: string,
    checked: map<string, bool>,
    nSelected: nat,
    selectedDir: Option<string>,
    updateList: bool)

  /**
   * One directory row: toggle its checkbox when clicked, enter it on a
   * double-click, and count it when checked, remembering its full path under
   * the current path of that moment.
   */
  function StepDir(d: string, k: nat, input: ExplorerInput, s: DirScan): (r: DirScan)
    requires d in s.checked
    ensures r.checked.Keys == s.checked.Keys
    ensures forall key :: key in s.checked && key != d ==> r.checked[key] == s.checked[key]
    ensures r.checked[d] == (s.checked[d] != (k in input.toggledDirs))
    ensures r.nSelected == s.nSelected + (if r.checked[d] then 1 else 0)
    ensures r.current == if k in input.doubleClickedDirs then RustPath.Join(s.current, d) else s.current
  {
    var m := if k in input.toggledDirs then s.checked[d := !s.checked[d]] else s.checked;
    var cur := if k in input.doubleClickedDirs then RustPath.Join(s.current, d) else s.current;
    var upd := s.updateList || k in input.doubleClickedDirs;
    var n := if m[d] then s.nSelected + 1 else s.nSelected;
    var sel := if m[d] then Some(RustPath.Join(cur, d)) else s.selectedDir;
    DirScan(cur, m, n, sel, upd)
  }

  /** The directory loop from position `k` on; `None` is the panic of looking up a listed name missing from the map. */
  function ScanDirs(dirs: seq<string>, input: ExplorerInput, k: nat, s: DirScan): (r: Option<DirScan>)
    requires k <= |dirs|
    ensures r.Some? <==> forall j :: k <= j < |dirs| ==> dirs[j] in s.checked
    ensures r.Some? ==> r.value.checked.Keys == s.checked.Keys
    ensures r.Some? ==> forall key :: key in s.checked && key !in dirs[k..] ==> r.value.checked[key] == s.checked[key]
    ensures r.Some? ==> r.value.nSelected >= s.nSelected
    ensures r.Some? && r.value.nSelected == s.nSelected ==> r.value.selectedDir == s.selectedDir
    ensures r.Some? && r.value.nSelected > s.nSelected ==> r.value.selectedDir.Some?
    ensures r.Some? && (forall j :: k <= j < |dirs| ==> j !in input.doubleClickedDirs) ==>
      r.value.current == s.current && r.value.updateList == s.updateList
    decreases |dirs| - k
  {
    if k == |dirs| then Some(s)
    else if dirs[k] !in s.checked then None
    else
      var r := ScanDirs(dirs, input, k + 1, StepDir(dirs[k], k, input, s));
      assert r.Some? ==> dirs[k..] == [dirs[k]] + dirs[k + 1..];
      r
  }

  /** The state of the file loop. */
  datatype FileScan = FileScan(checked: map<string, bool>, modalInput: Option<string>)

  /** One file row: toggle its checkbox when clicked, and on a double-click point the load dialog at the file's full path. */
  function StepFile(f: string, k: nat, input: ExplorerInput, current: string, s: FileScan): FileScan
    requires f in s.checked
  {
    var m := if k in input.toggledFiles then s.checked[f := !s.checked[f]] else s.checked;
    var modal := if k in input.doubleClickedFiles then Some(RustPath.Join(current, f)) else s.modalInput;
    FileScan(m, modal)
  }

  /** The file loop over the sorted names from position `k` on; `None` is the lookup panic. */
  function ScanFiles(files: seq<string>, input: ExplorerInput, current: string, k: nat, s: FileScan): (r: Option<FileScan>)
    requires k <= |files|
    ensures r.Some? <==> forall j :: k <= j < |files| ==> files[j] in s.checked
    ensures r.Some? ==> r.value.checked.Keys == s.checked.Keys
    decreases |files| - k
  {
    if k == |files| then Some(s)
    else if files[k] !in s.checked then None
    else ScanFiles(files, input, current, k + 1, StepFile(files[k], k, input, current, s))
  }

  /** The file loop changes no checkbox but those of the files it lists. */
  lemma {:induction false} ScanFilesKeepsOthers(files: seq<string>, input: ExplorerInput, current: string, k: nat, s: FileScan)
    requires k <= |files|
    requires ScanFiles(files, input, current, k, s).Some?
    ensures forall key :: key in s.checked && key !in files[k..] ==>
      ScanFiles(files, input, current, k, s).value.checked[key] == s.checked[key]
    decreases |files| - k
  {
    if k < |files| {
      ScanFilesKeepsOthers(files, input, current, k + 1, StepFile(files[k], k, input, current, s));
      assert files[k..] == [files[k]] + files[k + 1..];
    }
  }

  /** What `show` can see and change: its own fields and the two shared ones it writes. */
  datatype View = View(
    tab: ExplorerTab,
    checked: map<string, bool>,
    currentPath: string,
    fsListPromise: Option<Promise<ListResponse>>)

  /** The outcome of one frame; `rosbagLoad` is the directory handed to the ROSBAG2 loader. */
  datatype Frame = Frame(view: View, modalInput: Option<string>, rosbagLoad: Option<string>, panicked: bool)

  /** The ROSBAG2 button fires only with exactly one checked directory. */
  function RosbagGate(clicked: bool, nSelected: nat, selectedDir: Option<string>): Option<string>
    requires nSelected > 0 ==> selectedDir.Some?
  {
    if clicked && nSelected == 1 then Some(selectedDir.value) else None
  }

  /**
   * The rows of a ready listing: ".." (offered only when the current path
   * has a parent), the directories, the sorted files, then the listing
   * request when the path changed and the ROSBAG2 button.
   */
  function ListingStep(tab: ExplorerTab, m: map<string, bool>, path: string, p: Promise<ListResponse>, input: ExplorerInput): Frame
    requires ListingReady(p)
  {
    var l := p.poll.result.value;
    var parent := RustPath.Parent(path);
    var up := parent.Some? && input.parentDoubleClicked;
    var cur := if up then parent.value else path;
    match ScanDirs(l.directories, input, 0, DirScan(cur, m, 0, None, up))
    case None => Frame(View(tab, m, cur, Some(p)), None, None, true)
    case Some(sd) =>
      match ScanFiles(StrOrder.Sort(l.files), input, sd.current, 0, FileScan(sd.checked, None))
      case None => Frame(View(tab, sd.checked, sd.current, Some(p)), None, None, true)
      case Some(sf) =>
        var fs := if sd.updateList then Some(RequestList(sd.current)) else Some(p);
        Frame(View(tab, sf.checked, sd.current, fs), sf.modalInput,
              RosbagGate(input.rosbagClicked, sd.nSelected, sd.selectedDir), false)
  }

  /**
   * A DataFrames row panics when drawn: its header takes `id.unwrap()` and
   * `get_filename` of its path, which unwraps the path's file name.
   */
  predicate RowPanics(r: DfInfoRow) {
    r.id.None? || RustPath.FileName(r.dfPath).None?
  }

  /** The DataFrames tab panics at its first row without an id or a file name. */
  function DataframeTabPanics(rows: seq<DfInfoRow>): (r: bool)
    ensures !r <==> forall i :: 0 <= i < |rows| ==> !RowPanics(rows[i])
  {
    if rows == [] then false else RowPanics(rows[0]) || DataframeTabPanics(rows[1..])
  }

  /** One frame of `Explorer::show`. */
  function ShowStep(v: View, input: ExplorerInput): Frame {
    var tab := if input.tabClicked.Some? then input.tabClicked.value else v.tab;
    if tab == Dataframe then Frame(v.(tab := tab), None, None, DataframeTabPanics(input.dfInfos))
    else if tab != Filesystem then Frame(v.(tab := tab), None, None, false)
    else
      var fs := if input.refreshClicked then Some(RequestList(v.currentPath)) else v.fsListPromise;
      if fs.None? then Frame(View(tab, v.checked, v.currentPath, fs), None, None, false)
      else
        var m := SyncCheckedMap(fs.value, v.checked);
        if !ListingReady(fs.value) then Frame(View(tab, m, v.currentPath, fs), None, None, false)
        else ListingStep(tab, m, v.currentPath, fs.value, input)
  }

  /** The number of listed directories whose checkbox is set. */
  function CountChecked(ds: seq<string>, m: map<string, bool>): nat
    requires forall d :: d in ds ==> d in m
  {
    if ds == [] then 0 else (if m[ds[0]] then 1 else 0) + CountChecked(ds[1..], m)
  }

  /** The position of the last listed directory whose checkbox is set. */
  function LastChecked(ds: seq<string>, m: map<string, bool>): (r: Option<nat>)
    requires forall d :: d in ds ==> d in m
    ensures r.Some? ==> r.value < |ds| && m[ds[r.value]]
    ensures r.Some? ==> forall j :: r.value < j < |ds| ==> !m[ds[j]]
    ensures r.None? ==> forall j :: 0 <= j < |ds| ==> !m[ds[j]]
  {
    if ds == [] then None
    else match LastChecked(ds[1..], m)
      case Some(j) => Some(j + 1)
      case None => if m[ds[0]] then Some(0) else None
  }

  lemma LastCheckedCons(ds: seq<string>, m: map<string, bool>)
    requires ds != [] && forall d :: d in ds ==> d in m
    ensures LastChecked(ds, m) ==
      match LastChecked(ds[1..], m)
      case Some(j) => Some(j + 1)
      case None => if m[ds[0]] then Some(0) else None
  {
  }

  lemma NotInTail(s: seq<string>, k: nat)
    requires Distinct(s) && k < |s|
    ensures s[k] !in s[k + 1..]
  {
    forall j | k + 1 <= j < |s| ensures s[j] != s[k] { }
  }

  /** Every listed name from `k` on is a key of the loop's final map. */
  lemma ListedInResult(dirs: seq<string>, input: ExplorerInput, k: nat, s: DirScan)
    requires k <= |dirs| && ScanDirs(dirs, input, k, s).Some?
    ensures forall d :: d in dirs[k..] ==> d in ScanDirs(dirs, input, k, s).value.checked
  {
    forall d | d in dirs[k..] ensures d in ScanDirs(dirs, input, k, s).value.checked {
      var j :| 0 <= j < |dirs[k..]| && dirs[k..][j] == d;
      assert dirs[k + j] == d;
    }
  }

  /** One unfolding of the directory loop; with distinct names, the row's box is final after its own step. */
  lemma ScanDirsStep(dirs: seq<string>, input: ExplorerInput, k: nat, s: DirScan)
    requires k < |dirs| && Distinct(dirs) && ScanDirs(dirs, input, k, s).Some?
    ensures dirs[k] in s.checked
    ensures var s' := StepDir(dirs[k], k, input, s);
      && ScanDirs(dirs, input, k, s) == ScanDirs(dirs, input, k + 1, s')
      && ScanDirs(dirs, input, k + 1, s').value.checked[dirs[k]] == s'.checked[dirs[k]]
  {
    NotInTail(dirs, k);
  }

  /** With distinct directory names, the loop counts exactly the directories checked once it is done. */
  lemma {:induction false} ScanDirsCount(dirs: seq<string>, input: ExplorerInput, k: nat, s: DirScan)
    requires k <= |dirs| && Distinct(dirs)
    requires ScanDirs(dirs, input, k, s).Some?
    ensures forall d :: d in dirs[k..] ==> d in ScanDirs(dirs, input, k, s).value.checked
    ensures ScanDirs(dirs, input, k, s).value.nSelected ==
      s.nSelected + CountChecked(dirs[k..], ScanDirs(dirs, input, k, s).value.checked)
    decreases |dirs| - k
  {
    ListedInResult(dirs, input, k, s);
    if k < |dirs| {
      ScanDirsStep(dirs, input, k, s);
      var s' := StepDir(dirs[k], k, input, s);
      ScanDirsCount(dirs, input, k + 1, s');
      assert dirs[k..][0] == dirs[k] && dirs[k..][1..] == dirs[k + 1..];
    }
  }

  /**
   * With distinct directory names and no directory entered, the loop
   * remembers the last checked directory, under the current path.
   */
  lemma {:induction false} ScanDirsSelected(dirs: seq<string>, input: ExplorerInput, k: nat, s: DirScan)
    requires k <= |dirs| && Distinct(dirs)
    requires ScanDirs(dirs, input, k, s).Some?
    requires forall j :: k <= j < |dirs| ==> j !in input.doubleClickedDirs
    ensures forall d :: d in dirs[k..] ==> d in ScanDirs(dirs, input, k, s).value.checked
    ensures ScanDirs(dirs, input, k, s).value.selectedDir ==
      match LastChecked(dirs[k..], ScanDirs(dirs, input, k, s).value.checked)
      case None => s.selectedDir
      case Some(j) => Some(RustPath.Join(s.current, dirs[k + j]))
    decreases |dirs| - k
  {
    ListedInResult(dirs, input, k, s);
    if k < |dirs| {
      var d := dirs[k];
      ScanDirsStep(dirs, input, k, s);
      var s' := StepDir(d, k, input, s);
      assert k !in input.doubleClickedDirs;
      assert s'.current == s.current;
      assert s'.selectedDir == if s'.checked[d] then Some(RustPath.Join(s.current, d)) else s.selectedDir;
      ScanDirsSelected(dirs, input, k + 1, s');
      var r := ScanDirs(dirs, input, k + 1, s').value;
      assert dirs[k..][0] == d && dirs[k..][1..] == dirs[k + 1..];
      LastCheckedCons(dirs[k..], r.checked);
    }
  }

  /** Exactly one checked directory: it is the last checked one, and no other is checked. */
  lemma {:induction false} CountOne(ds: seq<string>, m: map<string, bool>)
    requires forall d :: d in ds ==> d in m
    requires CountChecked(ds, m) == 1
    ensures LastChecked(ds, m).Some?
    ensures forall j :: 0 <= j < |ds| && m[ds[j]] ==> j == LastChecked(ds, m).value
  {
    assert ds != [];
    if m[ds[0]] {
      CountZero(ds[1..], m);
    } else {
      CountOne(ds[1..], m);
      forall j | 0 <= j < |ds| && m[ds[j]] ensures j == LastChecked(ds, m).value {
        assert ds[1..][j - 1] == ds[j];
      }
    }
  }

  lemma {:induction false} CountZero(ds: seq<string>, m: map<string, bool>)
    requires forall d :: d in ds ==> d in m
    requires CountChecked(ds, m) == 0
    ensures forall j :: 0 <= j < |ds| ==> !m[ds[j]]
  {
    if ds != [] {
      CountZero(ds[1..], m);
      assert forall j :: 1 <= j < |ds| ==> ds[1..][j - 1] == ds[j];
    }
  }

  lemma {:induction false} CountSameOnListed(ds: seq<string>, a: map<string, bool>, b: map<string, bool>)
    requires forall d :: d in ds ==> d in a && d in b && a[d] == b[d]
    ensures CountChecked(ds, a) == CountChecked(ds, b)
  {
    if ds != [] {
      CountSameOnListed(ds[1..], a, b);
    }
  }

  lemma {:induction false} NoToggleDirs(dirs: seq<string>, input: ExplorerInput, k: nat, s: DirScan)
    requires k <= |dirs| && input.toggledDirs == {}
    requires ScanDirs(dirs, input, k, s).Some?
    ensures ScanDirs(dirs, input, k, s).value.checked == s.checked
    decreases |dirs| - k
  {
    if k < |dirs| {
      NoToggleDirs(dirs, input, k + 1, StepDir(dirs[k], k, input, s));
    }
  }

  lemma {:induction false} NoToggleFiles(files: seq<string>, input: ExplorerInput, current: string, k: nat, s: FileScan)
    requires k <= |files| && input.toggledFiles == {}
    requires ScanFiles(files, input, current, k, s).Some?
    ensures ScanFiles(files, input, current, k, s).value.checked == s.checked
    decreases |files| - k
  {
    if k < |files| {
      NoToggleFiles(files, input, current, k + 1, StepFile(files[k], k, input, current, s));
    }
  }

  /** One unfolding of the directory loop, with the row's effect on `update_list`. */
  lemma ScanDirsUnfold(dirs: seq<string>, input: ExplorerInput, k: nat, s: DirScan)
    requires k < |dirs| && ScanDirs(dirs, input, k, s).Some?
    ensures dirs[k] in s.checked
    ensures ScanDirs(dirs, input, k, s) == ScanDirs(dirs, input, k + 1, StepDir(dirs[k], k, input, s))
    ensures StepDir(dirs[k], k, input, s).updateList == (s.updateList || k in input.doubleClickedDirs)
  {
  }

  lemma {:induction false} EnterOne(dirs: seq<string>, input: ExplorerInput, k: nat, target: nat, s: DirScan)
    requires k <= |dirs| && target < |dirs| && input.doubleClickedDirs == {target}
    requires ScanDirs(dirs, input, k, s).Some?
    ensures k <= target ==>
      ScanDirs(dirs, input, k, s).value.current == RustPath.Join(s.current, dirs[target]) &&
      ScanDirs(dirs, input, k, s).value.updateList
    decreases |dirs| - k
  {
    if k < target {
      ScanDirsUnfold(dirs, input, k, s);
      var s' := StepDir(dirs[k], k, input, s);
      assert k !in input.doubleClickedDirs;
      assert s'.current == s.current;
      EnterOne(dirs, input, k + 1, target, s');
    } else if k == target {
      EnterLast(dirs, input, k, s);
    }
  }

  /** The last double-clicked row joins its name, and later rows keep the path. */
  lemma EnterLast(dirs: seq<string>, input: ExplorerInput, k: nat, s: DirScan)
    requires k < |dirs| && ScanDirs(dirs, input, k, s).Some?
    requires k in input.doubleClickedDirs
    requires forall j :: k < j < |dirs| ==> j !in input.doubleClickedDirs
    ensures ScanDirs(dirs, input, k, s).value.current == RustPath.Join(s.current, dirs[k])
    ensures ScanDirs(dirs, input, k, s).value.updateList
  {
    ScanDirsUnfold(dirs, input, k, s);
    var s' := StepDir(dirs[k], k, input, s);
    assert s'.current == RustPath.Join(s.current, dirs[k]) && s'.updateList;
    assert forall j :: k + 1 <= j < |dirs| ==> j !in input.doubleClickedDirs;
  }

  lemma {:induction false} PickOne(files: seq<string>, input: ExplorerInput, current: string, k: nat, target: nat, s: FileScan)
    requires k <= |files| && target < |files| && input.doubleClickedFiles == {target}
    requires ScanFiles(files, input, current, k, s).Some?
    ensures k <= target ==>
      ScanFiles(files, input, current, k, s).value.modalInput == Some(RustPath.Join(current, files[target]))
    ensures k > target ==> ScanFiles(files, input, current, k, s).value.modalInput == s.modalInput
    decreases |files| - k
  {
    if k < |files| {
      assert files[k] in s.checked;
      var s' := StepFile(files[k], k, input, current, s);
      assert ScanFiles(files, input, current, k, s) == ScanFiles(files, input, current, k + 1, s');
      PickOne(files, input, current, k + 1, target, s');
      if k != target {
        assert k !in input.doubleClickedFiles;
        assert s'.modalInput == s.modalInput;
      }
    }
  }

  /** Every name of the sorted file list is a listed file. */
  lemma SortedFilesListed(files: seq<string>)
    ensures forall f :: f in StrOrder.Sort(files) ==> f in files
  {
    StrOrder.SortSpec(files);
    forall f | f in StrOrder.Sort(files) ensures f in files {
      assert f in multiset(StrOrder.Sort(files));
    }
  }

  /** The frame's listing, when the Files tab shows a ready one it did not just replace. */
  predicate ShowsListing(v: View, input: ExplorerInput) {
    && (if input.tabClicked.Some? then input.tabClicked.value else v.tab) == Filesystem
    && !input.refreshClicked
    && v.fsListPromise.Some? && ListingReady(v.fsListPromise.value)
  }

  function Listing(v: View, input: ExplorerInput): ListResponse
    requires ShowsListing(v, input)
  {
    v.fsListPromise.value.poll.result.value
  }

  /** On a ready listing, a frame is the listing rows over the synchronised map. */
  lemma ShowIsListingStep(v: View, input: ExplorerInput)
    requires ShowsListing(v, input)
    ensures ShowStep(v, input) ==
      ListingStep(Filesystem, SyncCheckedMap(v.fsListPromise.value, v.checked), v.currentPath, v.fsListPromise.value, input)
  {
  }

  predicate NoDirEntered(input: ExplorerInput, dirs: seq<string>) {
    forall j :: 0 <= j < |dirs| ==> j !in input.doubleClickedDirs
  }

  /** While the Files tab waits for its listing, the checkbox map is emptied. */
  lemma ShowClearsWhilePending(v: View, input: ExplorerInput)
    requires (if input.tabClicked.Some? then input.tabClicked.value else v.tab) == Filesystem
    requires input.refreshClicked || (v.fsListPromise.Some? && v.fsListPromise.value.poll.Pending?)
    ensures ShowStep(v, input).view.checked == map[]
    ensures !ShowStep(v, input).panicked && ShowStep(v, input).rosbagLoad.None?
  {
  }

  /**
   * A listing that arrives at an empty map fills it with exactly the listed
   * names, so no row can miss its checkbox; without clicks on the rows they
   * all stay false.
   */
  lemma ShowFillsFreshMap(v: View, input: ExplorerInput)
    requires ShowsListing(v, input) && v.checked == map[]
    ensures !ShowStep(v, input).panicked
    ensures var l := Listing(v, input);
      forall key :: key in ShowStep(v, input).view.checked <==> key in l.directories || key in l.files
    ensures input.toggledDirs == {} && input.toggledFiles == {} ==>
      forall key :: key in ShowStep(v, input).view.checked ==> !ShowStep(v, input).view.checked[key]
  {
    ShowIsListingStep(v, input);
    var l := Listing(v, input);
    var m := SyncCheckedMap(v.fsListPromise.value, v.checked);
    var parent := RustPath.Parent(v.currentPath);
    var up := parent.Some? && input.parentDoubleClicked;
    var cur := if up then parent.value else v.currentPath;
    var s0 := DirScan(cur, m, 0, None, up);
    var sd := ScanDirs(l.directories, input, 0, s0);
    assert sd.Some?;
    var files := StrOrder.Sort(l.files);
    SortedFilesListed(l.files);
    var f0 := FileScan(sd.value.checked, None);
    assert ScanFiles(files, input, sd.value.current, 0, f0).Some?;
    if input.toggledDirs == {} && input.toggledFiles == {} {
      NoToggleDirs(l.directories, input, 0, s0);
      NoToggleFiles(files, input, sd.value.current, 0, f0);
    }
  }

  /**
   * ".." is offered only when the current path has a parent; choosing it
   * moves to that parent and requests its listing. Without a parent the
   * double-click is ignored.
   */
  lemma ShowGoesToParent(v: View, input: ExplorerInput)
    requires ShowsListing(v, input) && input.parentDoubleClicked
    requires NoDirEntered(input, Listing(v, input).directories)
    requires !ShowStep(v, input).panicked
    ensures var parent := RustPath.Parent(v.currentPath);
      var after := ShowStep(v, input).view;
      && (parent.Some? ==> after.currentPath == parent.value && after.fsListPromise == Some(RequestList(parent.value)))
      && (parent.None? ==> after.currentPath == v.currentPath && after.fsListPromise == v.fsListPromise)
  {
    ShowIsListingStep(v, input);
  }

  /** Double-clicking one directory moves into it and requests the new path's listing. */
  lemma ShowEntersDirectory(v: View, input: ExplorerInput, k: nat)
    requires ShowsListing(v, input) && !input.parentDoubleClicked
    requires k < |Listing(v, input).directories| && input.doubleClickedDirs == {k}
    requires !ShowStep(v, input).panicked
    ensures var path := RustPath.Join(v.currentPath, Listing(v, input).directories[k]);
      && ShowStep(v, input).view.currentPath == path
      && ShowStep(v, input).view.fsListPromise == Some(RequestList(path))
  {
    ShowIsListingStep(v, input);
    var l := Listing(v, input);
    var m := SyncCheckedMap(v.fsListPromise.value, v.checked);
    EnterOne(l.directories, input, 0, k, DirScan(v.currentPath, m, 0, None, false));
  }

  /** Double-clicking one file opens the load dialog on its full path and stays in the directory. */
  lemma ShowPicksFile(v: View, input: ExplorerInput, k: nat)
    requires ShowsListing(v, input) && !input.parentDoubleClicked
    requires NoDirEntered(input, Listing(v, input).directories)
    requires k < |Listing(v, input).files| && input.doubleClickedFiles == {k}
    requires !ShowStep(v, input).panicked
    ensures ShowStep(v, input).modalInput == Some(RustPath.Join(v.currentPath, StrOrder.Sort(Listing(v, input).files)[k]))
    ensures ShowStep(v, input).view.currentPath == v.currentPath
    ensures ShowStep(v, input).view.fsListPromise == v.fsListPromise
  {
    ShowIsListingStep(v, input);
    var l := Listing(v, input);
    StrOrder.SortSpec(l.files);
    var m := SyncCheckedMap(v.fsListPromise.value, v.checked);
    var sd := ScanDirs(l.directories, input, 0, DirScan(v.currentPath, m, 0, None, false)).value;
    PickOne(StrOrder.Sort(l.files), input, v.currentPath, 0, k, FileScan(sd.checked, None));
  }

  /**
   * "Load as ROSBAG2" fires exactly when it is clicked with one checked
   * directory, whatever else was clicked in the frame.
   */
  lemma ShowRosbagGate(v: View, input: ExplorerInput)
    requires ShowsListing(v, input)
    requires Distinct(Listing(v, input).directories + Listing(v, input).files)
    requires !ShowStep(v, input).panicked
    ensures var (l, after) := (Listing(v, input), ShowStep(v, input));
      && (forall d :: d in l.directories ==> d in after.view.checked)
      && (after.rosbagLoad.Some? <==> input.rosbagClicked && CountChecked(l.directories, after.view.checked) == 1)
  {
    ShowIsListingStep(v, input);
    var l := Listing(v, input);
    DistinctParts(l.directories, l.files);
    var m := SyncCheckedMap(v.fsListPromise.value, v.checked);
    var parent := RustPath.Parent(v.currentPath);
    var up := parent.Some? && input.parentDoubleClicked;
    var cur := if up then parent.value else v.currentPath;
    ListingRosbagCount(l.directories, l.files, input, DirScan(cur, m, 0, None, up));
  }

  /**
   * Without ".." or directory double-clicks, the directory "Load as ROSBAG2"
   * hands over is the full path of a checked listed directory.
   */
  lemma ShowRosbagPath(v: View, input: ExplorerInput)
    requires ShowsListing(v, input) && !input.parentDoubleClicked
    requires Distinct(Listing(v, input).directories + Listing(v, input).files)
    requires NoDirEntered(input, Listing(v, input).directories)
    requires !ShowStep(v, input).panicked
    ensures var (l, after) := (Listing(v, input), ShowStep(v, input));
      after.rosbagLoad.Some? ==>
        exists j :: (0 <= j < |l.directories| && l.directories[j] in after.view.checked &&
          after.view.checked[l.directories[j]] &&
          after.rosbagLoad.value == RustPath.Join(v.currentPath, l.directories[j]))
  {
    ShowIsListingStep(v, input);
    var l := Listing(v, input);
    DistinctParts(l.directories, l.files);
    var m := SyncCheckedMap(v.fsListPromise.value, v.checked);
    ListingRosbagGate(l.directories, l.files, input, DirScan(v.currentPath, m, 0, None, false));
  }

  /**
   * A directory that is both checked and double-clicked in one frame is
   * joined twice: the row moves the current path into it before the
   * selection joins its name again, so "Load as ROSBAG2" hands over
   * `current/d/d`.
   */
  lemma ShowRosbagJoinsEnteredDirTwice(v: View, input: ExplorerInput, d: string)
    requires ShowsListing(v, input) && !input.parentDoubleClicked
    requires Listing(v, input).directories == [d] && d !in Listing(v, input).files
    requires input.doubleClickedDirs == {0} && input.rosbagClicked
    requires !ShowStep(v, input).panicked
    requires d in ShowStep(v, input).view.checked && ShowStep(v, input).view.checked[d]
    ensures ShowStep(v, input).rosbagLoad == Some(RustPath.Join(RustPath.Join(v.currentPath, d), d))
  {
    ShowIsListingStep(v, input);
    var l := Listing(v, input);
    var m := SyncCheckedMap(v.fsListPromise.value, v.checked);
    var s0 := DirScan(v.currentPath, m, 0, None, false);
    assert d in m;
    var s1 := StepDir(d, 0, input, s0);
    assert ScanDirs(l.directories, input, 0, s0) == ScanDirs(l.directories, input, 1, s1) == Some(s1);
    var files := StrOrder.Sort(l.files);
    SortedFilesListed(l.files);
    var f0 := FileScan(s1.checked, None);
    ScanFilesKeepsOthers(files, input, s1.current, 0, f0);
    assert files[0..] == files;
  }

  /**
   * A ".." double-click moves the current path to the parent before the
   * directory rows run, so, without directory double-clicks, the directory
   * "Load as ROSBAG2" hands over is a checked listed name joined onto the
   * parent: a path the listing on screen does not show under that name.
   */
  lemma ShowRosbagAfterParent(v: View, input: ExplorerInput)
    requires ShowsListing(v, input) && input.parentDoubleClicked
    requires RustPath.Parent(v.currentPath).Some?
    requires Distinct(Listing(v, input).directories + Listing(v, input).files)
    requires NoDirEntered(input, Listing(v, input).directories)
    requires !ShowStep(v, input).panicked
    ensures var (l, after) := (Listing(v, input), ShowStep(v, input));
      after.rosbagLoad.Some? ==>
        exists j :: (0 <= j < |l.directories| && l.directories[j] in after.view.checked &&
          after.view.checked[l.directories[j]] &&
          after.rosbagLoad.value == RustPath.Join(RustPath.Parent(v.currentPath).value, l.directories[j]))
  {
    ShowIsListingStep(v, input);
    var l := Listing(v, input);
    DistinctParts(l.directories, l.files);
    var m := SyncCheckedMap(v.fsListPromise.value, v.checked);
    ListingRosbagGate(l.directories, l.files, input, DirScan(RustPath.Parent(v.currentPath).value, m, 0, None, true));
  }

  /** The double join on concrete names: from "/home", the checked and entered "a" is handed over as "/home/a/a". */
  lemma JoinTwiceExample()
    ensures RustPath.Join(RustPath.Join("/home", "a"), "a") == "/home/a/a"
  {
    assert RustPath.Join("/home", "a") == "/home/a" by {
      assert !RustPath.HasRoot("a");
    }
    assert !RustPath.HasRoot("a");
  }

  lemma DistinctParts(a: seq<string>, b: seq<string>)
    requires Distinct(a + b)
    ensures Distinct(a)
    ensures forall x :: x in a ==> x !in b
  {
    forall i, j | 0 <= i < j < |a| ensures a[i] != a[j] {
      assert (a + b)[i] == a[i] && (a + b)[j] == a[j];
    }
    forall x | x in a ensures x !in b {
      var i :| 0 <= i < |a| && a[i] == x;
      forall j | 0 <= j < |b| ensures b[j] != x {
        assert (a + b)[i] == a[i] && (a + b)[|a| + j] == b[j];
      }
    }
  }

  /**
   * The count over the two loops, for a listing whose directory names are
   * distinct and not file names, and for any clicks: the file loop leaves
   * the directories' boxes alone, so `n_selected_dir` is the number of
   * listed directories checked at the end of the frame.
   */
  lemma ListingRosbagCount(dirs: seq<string>, files: seq<string>, input: ExplorerInput, s0: DirScan)
    requires Distinct(dirs) && forall x :: x in dirs ==> x !in files
    requires s0.nSelected == 0
    requires ScanDirs(dirs, input, 0, s0).Some?
    requires var sd := ScanDirs(dirs, input, 0, s0).value;
      ScanFiles(StrOrder.Sort(files), input, sd.current, 0, FileScan(sd.checked, None)).Some?
    ensures var sd := ScanDirs(dirs, input, 0, s0).value;
      var sf := ScanFiles(StrOrder.Sort(files), input, sd.current, 0, FileScan(sd.checked, None)).value;
      && (forall d :: d in dirs ==> d in sd.checked && d in sf.checked && sf.checked[d] == sd.checked[d])
      && sd.nSelected == CountChecked(dirs, sf.checked)
  {
    var sd := ScanDirs(dirs, input, 0, s0).value;
    ScanDirsCount(dirs, input, 0, s0);
    assert dirs[0..] == dirs;
    var files' := StrOrder.Sort(files);
    SortedFilesListed(files);
    var f0 := FileScan(sd.checked, None);
    var sf := ScanFiles(files', input, sd.current, 0, f0).value;
    ScanFilesKeepsOthers(files', input, sd.current, 0, f0);
    assert files'[0..] == files';
    CountSameOnListed(dirs, sd.checked, sf.checked);
  }

  /**
   * The selection over the two loops when no directory row is
   * double-clicked: the path stays put, and a single checked directory is
   * selected under it.
   */
  lemma ListingRosbagGate(dirs: seq<string>, files: seq<string>, input: ExplorerInput, s0: DirScan)
    requires Distinct(dirs) && forall x :: x in dirs ==> x !in files
    requires NoDirEntered(input, dirs) && s0.nSelected == 0 && s0.selectedDir.None?
    requires ScanDirs(dirs, input, 0, s0).Some?
    requires var sd := ScanDirs(dirs, input, 0, s0).value;
      ScanFiles(StrOrder.Sort(files), input, sd.current, 0, FileScan(sd.checked, None)).Some?
    ensures var sd := ScanDirs(dirs, input, 0, s0).value;
      var sf := ScanFiles(StrOrder.Sort(files), input, sd.current, 0, FileScan(sd.checked, None)).value;
      && sd.current == s0.current
      && (forall d :: d in dirs ==> d in sf.checked)
      && sd.nSelected == CountChecked(dirs, sf.checked)
      && (sd.nSelected == 1 ==> exists j :: (0 <= j < |dirs| && sf.checked[dirs[j]] &&
            sd.selectedDir == Some(RustPath.Join(s0.current, dirs[j]))))
  {
    var sd := ScanDirs(dirs, input, 0, s0).value;
    var sf := ScanFiles(StrOrder.Sort(files), input, sd.current, 0, FileScan(sd.checked, None)).value;
    ListingRosbagCount(dirs, files, input, s0);
    CountSameOnListed(dirs, sd.checked, sf.checked);
    ScanDirsSelected(dirs, input, 0, s0);
    assert dirs[0..] == dirs;
    if sd.nSelected == 1 {
      CountOne(dirs, sd.checked);
      var j := LastChecked(dirs, sd.checked).value;
      assert sf.checked[dirs[j]] && sd.selectedDir == Some(RustPath.Join(s0.current, dirs[j]));
    }
  }

  /**
   * The DataFrames tab only lists `latest_df_info_map`: it panics exactly
   * when some row has no id or a path without a file name, and changes
   * nothing but the tab.
   */
  lemma ShowDataframeTab(v: View, input: ExplorerInput)
    requires (if input.tabClicked.Some? then input.tabClicked.value else v.tab) == Dataframe
    ensures ShowStep(v, input).panicked <==>
      exists i :: 0 <= i < |input.dfInfos| && (input.dfInfos[i].id.None? || RustPath.FileName(input.dfInfos[i].dfPath).None?)
    ensures ShowStep(v, input).view == v.(tab := Dataframe)
    ensures ShowStep(v, input).modalInput.None? && ShowStep(v, input).rosbagLoad.None?
  {
  }

  /** Without double-clicks or refresh the frame neither moves nor requests a listing. */
  lemma ShowStaysPut(v: View, input: ExplorerInput)
    requires !input.refreshClicked && !input.parentDoubleClicked && input.doubleClickedDirs == {}
    requires !ShowStep(v, input).panicked
    ensures ShowStep(v, input).view.currentPath == v.currentPath
    ensures ShowStep(v, input).view.fsListPromise == v.fsListPromise
  {
  }

  /** The explorer panel's own state. */
  class Explorer {
    var explorerTab: ExplorerTab
    var checkedMap: map<string, bool>

    function ViewOf(common: CD.CommonData): View
      reads this, common
    {
      View(explorerTab, checkedMap, common.currentPath, common.fsListPromise)
    }

    /** `Explorer::default`: the Files tab and no checkboxes. */
    constructor ()
      ensures explorerTab == Filesystem && checkedMap == map[]
    {
      explorerTab := Filesystem;
      checkedMap := map[];
    }

    /** The checkbox map brought in step with the listing promise. */
    method SyncChecked(p: Promise<ListResponse>)
      modifies this
      ensures checkedMap == SyncCheckedMap(p, old(checkedMap))
      ensures explorerTab == old(explorerTab)
    {
      if p.poll.Pending? && checkedMap != map[] {
        checkedMap := map[];
      }
      if !ListingReady(p) || checkedMap != map[] {
        return;
      }
      var fsList := p.poll.result.value;
      var i := 0;
      while i < |fsList.directories|
        invariant 0 <= i <= |fsList.directories|
        invariant forall key :: key in checkedMap <==> key in fsList.directories[..i]
        invariant forall key :: key in checkedMap ==> !checkedMap[key]
        invariant explorerTab == old(explorerTab)
      {
        checkedMap := checkedMap[fsList.directories[i] := false];
        i := i + 1;
      }
      assert fsList.directories[..i] == fsList.directories;
      i := 0;
      while i < |fsList.files|
        invariant 0 <= i <= |fsList.files|
        invariant forall key :: key in checkedMap <==> key in fsList.directories || key in fsList.files[..i]
        invariant forall key :: key in checkedMap ==> !checkedMap[key]
        invariant explorerTab == old(explorerTab)
      {
        checkedMap := checkedMap[fsList.files[i] := false];
        i := i + 1;
      }
      assert fsList.files[..i] == fsList.files;
    }

    /** One directory row: its checkbox, its double-click, and the count of checked rows. */
    method VisitDir(dirname: string, k: nat, input: ExplorerInput, path: string, n: nat, sel: Option<string>, upd: bool)
      returns (currentPath: string, nSelectedDir: nat, selectedDir: Option<string>, updateList: bool)
      requires dirname in checkedMap
      modifies this
      ensures DirScan(currentPath, checkedMap, nSelectedDir, selectedDir, updateList)
           == StepDir(dirname, k, input, DirScan(path, old(checkedMap), n, sel, upd))
      ensures explorerTab == old(explorerTab)
    {
      currentPath, nSelectedDir, selectedDir, updateList := path, n, sel, upd;
      if k in input.toggledDirs {
        checkedMap := checkedMap[dirname := !checkedMap[dirname]];
      }
      if k in input.doubleClickedDirs {
        currentPath := RustPath.Join(currentPath, dirname);
        updateList := true;
      }
      if checkedMap[dirname] {
        nSelectedDir := nSelectedDir + 1;
        selectedDir := Some(RustPath.Join(currentPath, dirname));
      }
    }

    /**
     * The directory rows, starting from `path`; `currentPath` is where they
     * leave the explorer, and `panicked` reports a listed name missing from
     * the map.
     */
    method WalkDirs(dirs: seq<string>, input: ExplorerInput, path: string, updateList0: bool)
      returns (panicked: bool, currentPath: string, nSelectedDir: nat, selectedDir: Option<string>, updateList: bool)
      modifies this
      ensures var r := ScanDirs(dirs, input, 0, DirScan(path, old(checkedMap), 0, None, updateList0));
        && panicked == r.None?
        && (!panicked ==> r.value == DirScan(currentPath, checkedMap, nSelectedDir, selectedDir, updateList))
      ensures explorerTab == old(explorerTab)
    {
      ghost var s0 := DirScan(path, checkedMap, 0, None, updateList0);
      currentPath, nSelectedDir, selectedDir, updateList := path, 0, None, updateList0;
      var k := 0;
      while k < |dirs|
        invariant 0 <= k <= |dirs|
        invariant ScanDirs(dirs, input, k, DirScan(currentPath, checkedMap, nSelectedDir, selectedDir, updateList))
               == ScanDirs(dirs, input, 0, s0)
        invariant explorerTab == old(explorerTab)
      {
        var dirname := dirs[k];
        if dirname !in checkedMap {
          return true, currentPath, nSelectedDir, selectedDir, updateList;
        }
        ghost var before := DirScan(currentPath, checkedMap, nSelectedDir, selectedDir, updateList);
        assert ScanDirs(dirs, input, k, before) == ScanDirs(dirs, input, k + 1, StepDir(dirname, k, input, before));
        currentPath, nSelectedDir, selectedDir, updateList :=
          VisitDir(dirname, k, input, currentPath, nSelectedDir, selectedDir, updateList);
        k := k + 1;
      }
      panicked := false;
    }

    /** The file rows over the sorted names; `panicked` reports a listed name missing from the map. */
    method WalkFiles(fsvec: seq<string>, input: ExplorerInput, currentPath: string)
      returns (panicked: bool, modalInput: Option<string>)
      modifies this
      ensures var r := ScanFiles(fsvec, input, currentPath, 0, FileScan(old(checkedMap), None));
        && panicked == r.None?
        && (!panicked ==> r.value == FileScan(checkedMap, modalInput))
      ensures explorerTab == old(explorerTab)
    {
      ghost var f0 := FileScan(checkedMap, None);
      modalInput := None;
      var k := 0;
      while k < |fsvec|
        invariant 0 <= k <= |fsvec|
        invariant ScanFiles(fsvec, input, currentPath, k, FileScan(checkedMap, modalInput))
               == ScanFiles(fsvec, input, currentPath, 0, f0)
        invariant explorerTab == old(explorerTab)
      {
        var filename := fsvec[k];
        if filename !in checkedMap {
          return true, modalInput;
        }
        if k in input.toggledFiles {
          checkedMap := checkedMap[filename := !checkedMap[filename]];
        }
        if k in input.doubleClickedFiles {
          modalInput := Some(RustPath.Join(currentPath, filename));
        }
        k := k + 1;
      }
      panicked := false;
    }

    /** The rows of a ready listing, which is the explorer's current listing promise. */
    method ShowListing(common: CD.CommonData, p: Promise<ListResponse>, input: ExplorerInput)
      returns (panicked: bool, modalInput: Option<string>, rosbagLoad: Option<string>)
      requires ListingReady(p) && common.fsListPromise == Some(p)
      modifies this, common
      ensures var f := ListingStep(old(explorerTab), old(checkedMap), old(common.currentPath), p, input);
        && panicked == f.panicked
        && (!panicked ==> ViewOf(common) == f.view && modalInput == f.modalInput && rosbagLoad == f.rosbagLoad)
      ensures common.dataframes == old(common.dataframes) && common.helloPromise == old(common.helloPromise)
      ensures common.defaultPath == old(common.defaultPath) && common.dPathPromise == old(common.dPathPromise)
    {
      var fsList := p.poll.result.value;
      var fsvec := StrOrder.Sort(fsList.files);
      var updateList := false;
      var ancPath := RustPath.Parent(common.currentPath);
      if ancPath.Some? && input.parentDoubleClicked {
        common.currentPath := ancPath.value;
        updateList := true;
      }
      var currentPath, nSelectedDir, selectedDir;
      panicked, currentPath, nSelectedDir, selectedDir, updateList :=
        WalkDirs(fsList.directories, input, common.currentPath, updateList);
      common.currentPath := currentPath;
      modalInput, rosbagLoad := None, None;
      if panicked {
        return;
      }
      panicked, modalInput := WalkFiles(fsvec, input, common.currentPath);
      if panicked {
        return;
      }
      if updateList {
        common.fsListPromise := Some(RequestList(common.currentPath));
      }
      if input.rosbagClicked && nSelectedDir == 1 {
        rosbagLoad := Some(selectedDir.value);
      }
    }

    /** The DataFrames tab: one collapsing header per row, in iteration order. */
    method ShowDataframes(rows: seq<DfInfoRow>) returns (panicked: bool)
      ensures panicked == DataframeTabPanics(rows)
    {
      var i := 0;
      while i < |rows|
        invariant 0 <= i <= |rows|
        invariant forall j :: 0 <= j < i ==> !RowPanics(rows[j])
      {
        if rows[i].id.None? {
          return true;
        }
        var name := RustPath.FileName(rows[i].dfPath);
        if name.None? {
          return true;
        }
        i := i + 1;
      }
      panicked := false;
    }

    /**
     * `Explorer::show`. The load-dialog input and the ROSBAG2 load are
     * returned; `panicked` reports a listed name missing from the map.
     */
    method Show(common: CD.CommonData, input: ExplorerInput)
      returns (panicked: bool, modalInput: Option<string>, rosbagLoad: Option<string>)
      modifies this, common
      ensures var f := ShowStep(old(ViewOf(common)), input);
        && panicked == f.panicked
        && (!panicked ==> ViewOf(common) == f.view && modalInput == f.modalInput && rosbagLoad == f.rosbagLoad)
      ensures common.dataframes == old(common.dataframes) && common.helloPromise == old(common.helloPromise)
      ensures common.defaultPath == old(common.defaultPath) && common.dPathPromise == old(common.dPathPromise)
    {
      modalInput, rosbagLoad := None, None;
      if input.tabClicked.Some? {
        explorerTab := input.tabClicked.value;
      }
      if explorerTab == Dataframe {
        panicked := ShowDataframes(input.dfInfos);
        return;
      }
      if explorerTab != Filesystem {
        return false, modalInput, rosbagLoad;
      }
      if input.refreshClicked {
        common.fsListPromise := Some(RequestList(common.currentPath));
      }
      if common.fsListPromise.None? {
        return false, modalInput, rosbagLoad;
      }
      var promise := common.fsListPromise.value;
      SyncChecked(promise);
      if !ListingReady(promise) {
        return false, modalInput, rosbagLoad;
      }
      panicked, modalInput, rosbagLoad := ShowListing(common, promise, input);
    }
  }
}
