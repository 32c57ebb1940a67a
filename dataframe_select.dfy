/**
 * The dataframe selector (src/components/dataframe_select.rs): an index into
 * the shared registry, changed by a combo box that offers the loaded entries
 * only, and the frame `select` hands back for that index.
 */
module DataFrameSelect {
  import opened Wrappers
  import opened BackendTalk
  import RustPath
  import CD = CommonData

  /** An entry the combo box offers: one that exists and is loaded. */
  predicate Offered(d: seq<CD.Entry>, i: nat) {
    i < |d| && d[i].1.Some?
  }

  predicate Named(e: CD.Entry) {
    RustPath.FileName(e.0.filepath).Some?
  }

  /** The frame returned for `idx`: that entry's payload when it exists and is loaded, an empty frame otherwise. */
  function SelectedFrame(d: seq<CD.Entry>, idx: nat): (df: DataFrame)
    ensures Offered(d, idx) ==> df == d[idx].1.value
    ensures !Offered(d, idx) ==> df == EmptyFrame
  {
    if idx < |d| && d[idx].1.Some? then d[idx].1.value else EmptyFrame
  }

  /** One frame of input: whether the combo box is open, and the row clicked in it. */
  datatype ComboInput = ComboInput(open: bool, clicked: Option<nat>)

  /**
   * The combo box rows from `k` on: one per loaded entry, each labelled by
   * `get_filename`; a click on a row selects its index. `None` is the panic
   * of `get_filename` on a row whose path has no file name.
   */
  function ComboFrom(d: seq<CD.Entry>, k: nat, idx: nat, clicked: Option<nat>): (r: Option<nat>)
    requires k <= |d|
    ensures r.Some? <==> forall j :: k <= j < |d| && Offered(d, j) ==> Named(d[j])
    ensures r.Some? ==> r.value == idx || (clicked == Some(r.value) && Offered(d, r.value))
    ensures r.Some? && (clicked.None? || clicked.value < k || !Offered(d, clicked.value)) ==> r.value == idx
    ensures r.Some? && clicked.Some? && k <= clicked.value && Offered(d, clicked.value) ==> r.value == clicked.value
    decreases |d| - k
  {
    if k == |d| then Some(idx)
    else if d[k].1.Some? then
      if !Named(d[k]) then None
      else ComboFrom(d, k + 1, if clicked == Some(k) then k else idx, clicked)
    else ComboFrom(d, k + 1, idx, clicked)
  }

  datatype Selection = Selection(panicked: bool, index: nat, frame: DataFrame)

  /**
   * One call of `select`. With a non-empty registry the current entry is
   * looked up with `unwrap` and labelled with `get_filename`, both of which
   * panic on failure; then the open combo box may move the index.
   */
  function SelectStep(d: seq<CD.Entry>, idx: nat, input: ComboInput): Selection {
    if |d| == 0 then Selection(false, idx, SelectedFrame(d, idx))
    else if idx >= |d| || !Named(d[idx]) then Selection(true, idx, EmptyFrame)
    else if !input.open then Selection(false, idx, SelectedFrame(d, idx))
    else match ComboFrom(d, 0, idx, input.clicked)
      case None => Selection(true, idx, EmptyFrame)
      case Some(i) => Selection(false, i, SelectedFrame(d, i))
  }

  /**
   * `select` panics exactly when the registry is non-empty and the index is
   * out of range, the current entry has no file name, or the open combo box
   * lists a loaded entry without one.
   */
  lemma SelectPanics(d: seq<CD.Entry>, idx: nat, input: ComboInput)
    ensures SelectStep(d, idx, input).panicked <==>
      |d| > 0 && (idx >= |d| || !Named(d[idx]) ||
                  (input.open && exists j :: 0 <= j < |d| && Offered(d, j) && !Named(d[j])))
  {
  }

  /**
   * The index moves only to the clicked row, which is a loaded entry, so a
   * user choice always returns that entry's payload; without a usable click
   * the index stays.
   */
  lemma SelectChoosesLoaded(d: seq<CD.Entry>, idx: nat, input: ComboInput)
    requires !SelectStep(d, idx, input).panicked
    ensures var r := SelectStep(d, idx, input);
      && (r.index != idx ==> input.clicked == Some(r.index) && Offered(d, r.index) && r.frame == d[r.index].1.value)
      && (input.open && input.clicked.Some? && Offered(d, input.clicked.value) ==> r.index == input.clicked.value)
      && (!input.open || input.clicked.None? ==> r.index == idx)
      && r.frame == SelectedFrame(d, r.index)
  {
  }

  /** An empty registry yields an empty frame and never panics, whatever the index. */
  lemma SelectEmptyRegistry(idx: nat, input: ComboInput)
    ensures SelectStep([], idx, input) == Selection(false, idx, EmptyFrame)
  {
  }

  /** A selector: the index of the registry entry it points at. */
  class DataFrameSelect {
    var dataframeIndex: nat

    /** `DataFrameSelect::default`: the first entry. */
    constructor ()
      ensures dataframeIndex == 0
    {
      dataframeIndex := 0;
    }

    /**
     * `DataFrameSelect::select`. The registry is only read: it is not in the
     * frame of this method.
     */
    method Select(common: CD.CommonData, input: ComboInput) returns (panicked: bool, df: DataFrame)
      modifies this
      ensures var r := SelectStep(common.dataframes, old(dataframeIndex), input);
        && panicked == r.panicked
        && (!panicked ==> dataframeIndex == r.index && df == r.frame)
    {
      var d := common.dataframes;
      df := EmptyFrame;
      if |d| != 0 {
        if dataframeIndex >= |d| {
          return true, df;
        }
        var fname := RustPath.FileName(d[dataframeIndex].0.filepath);
        if fname.None? {
          return true, df;
        }
        if input.open {
          ghost var idx0 := dataframeIndex;
          var i := 0;
          while i < |d|
            invariant 0 <= i <= |d|
            invariant ComboFrom(d, i, dataframeIndex, input.clicked) == ComboFrom(d, 0, idx0, input.clicked)
          {
            if d[i].1.Some? {
              var rowName := RustPath.FileName(d[i].0.filepath);
              if rowName.None? {
                return true, df;
              }
              if input.clicked == Some(i) {
                dataframeIndex := i;
              }
            }
            i := i + 1;
          }
        }
      }
      if dataframeIndex < |d| && d[dataframeIndex].1.Some? {
        return false, d[dataframeIndex].1.value;
      }
      panicked := false;
    }
  }
}
