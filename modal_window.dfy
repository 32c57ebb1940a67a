/**
 * The load descriptor of a dataframe (`DataFrameInfo`), its type and
 * lifecycle enums, its ordering and equality, the `get_filename` helper and
 * the two intents of the load dialog (src/components/modal_window.rs).
 * Rust's SCREAMING_CASE variants are written in PascalCase: `COMMA_SEP` is
 * `CommaSep`, `LOAD_NOW` is `LoadNow`, and so on.
 */
module ModalWindow {
  import opened Wrappers
  import StrOrder
  import RustPath

  datatype DataFrameType = CommaSep | Ndev | Kitti

  datatype LoadState = OpenModalWindow | LoadNow | Loading | Loaded

  datatype DataFrameInfo = DataFrameInfo(filepath: string, dfType: DataFrameType, loadState: LoadState)

  /** `DataFrameInfo::new`: a descriptor for `fpath` that still waits for the dialog. */
  function New(fpath: string): (info: DataFrameInfo)
    ensures info.filepath == fpath
    ensures info.dfType == Ndev && info.loadState == OpenModalWindow
  {
    DataFrameInfo(fpath, Ndev, OpenModalWindow)
  }

  /** `Ord::cmp`: descriptors are ordered by their file path alone. */
  function Cmp(a: DataFrameInfo, b: DataFrameInfo): StrOrder.Ordering {
    StrOrder.Cmp(a.filepath, b.filepath)
  }

  /** `PartialOrd::partial_cmp`: always defined. */
  function PartialCmp(a: DataFrameInfo, b: DataFrameInfo): (r: Option<StrOrder.Ordering>)
    ensures r.Some?
  {
    Some(Cmp(a, b))
  }

  /** `PartialEq::eq`: path, type and state all agree. */
  predicate Eq(a: DataFrameInfo, b: DataFrameInfo) {
    (a.filepath, a.dfType, a.loadState) == (b.filepath, b.dfType, b.loadState)
  }

  /** `cmp` says `Equal` exactly for descriptors of the same path. */
  lemma {:induction false} CmpEqualIffSamePath(a: DataFrameInfo, b: DataFrameInfo)
    ensures Cmp(a, b) == StrOrder.Equal <==> a.filepath == b.filepath
    ensures PartialCmp(a, b) == Some(StrOrder.Equal) <==> a.filepath == b.filepath
  {
    StrOrder.CmpEqualIff(a.filepath, b.filepath);
  }

  /** `cmp` is antisymmetric: swapping the operands reverses the ordering. */
  lemma {:induction false} CmpReverse(a: DataFrameInfo, b: DataFrameInfo)
    ensures Cmp(b, a) == Cmp(a, b).Reverse()
  {
    StrOrder.CmpReverse(a.filepath, b.filepath);
  }

  /** `==` is finer than `cmp`: equal descriptors compare `Equal`, but not conversely. */
  lemma {:induction false} EqFinerThanCmp(a: DataFrameInfo, b: DataFrameInfo)
    ensures Eq(a, b) ==> Cmp(a, b) == StrOrder.Equal
    ensures a.filepath == b.filepath && a.dfType != b.dfType ==> Cmp(a, b) == StrOrder.Equal && !Eq(a, b)
  {
    StrOrder.CmpEqualIff(a.filepath, b.filepath);
  }

  /**
   * `get_filename`: the final component of the path; `None` stands for the
   * panic of `file_name().unwrap()` (a path such as "/" or one ending in "..").
   */
  function GetFilename(fullpath: string): (name: Option<string>)
    ensures name.Some? ==> RustPath.IsEntryName(name.value) && name.value != ".."
    ensures fullpath == "/" ==> name == None
  {
    RustPath.RootHasNoParentOrName();
    RustPath.FileName(fullpath)
  }

  /** The widgets of the dialog that report a click in one frame. */
  datatype ModalClicks = ModalClicks(commaSep: bool, ndev: bool, kitti: bool, loadFile: bool)

  /** The type the radios leave selected: the last one clicked in the order they are drawn. */
  function ChosenType(current: DataFrameType, clicks: ModalClicks): DataFrameType {
    if clicks.kitti then Kitti
    else if clicks.ndev then Ndev
    else if clicks.commaSep then CommaSep
    else current
  }

  /**
   * `ModalWindow::show` on `info`: the last clicked type radio sets the type,
   * "Load File" requests the load, nothing else changes. The dialog first
   * labels the file with `get_filename`, which panics on a path without one.
   */
  method Show(info: DataFrameInfo, clicks: ModalClicks) returns (panicked: bool, shown: DataFrameInfo)
    ensures panicked <==> RustPath.FileName(info.filepath).None?
    ensures panicked ==> shown == info
    ensures !panicked ==> shown.filepath == info.filepath
    ensures !panicked ==> shown.dfType == ChosenType(info.dfType, clicks)
    ensures !panicked ==> shown.loadState == (if clicks.loadFile then LoadNow else info.loadState)
  {
    shown := info;
    var name := GetFilename(info.filepath);
    if name.None? {
      return true, shown;
    }
    panicked := false;
    if clicks.commaSep {
      shown := shown.(dfType := CommaSep);
    }
    if clicks.ndev {
      shown := shown.(dfType := Ndev);
    }
    if clicks.kitti {
      shown := shown.(dfType := Kitti);
    }
    if clicks.loadFile {
      shown := shown.(loadState := LoadNow);
    }
  }
}
