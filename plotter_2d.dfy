/**
 * The 2-D plotter (src/components/plotter_2d.rs): a list of series settings
 * and, in step with it, one dataframe selector per series. The settings
 * panel edits, deletes and adds series; the plot then draws every series
 * that has a selector with a key, is visible, finds its frame and has both
 * axis columns set.
 */
module Plotter2D {
  import opened Wrappers
  import opened BackendTalk
  import CD = CommonData
  import DFS = DataFrameSelect

  datatype SeriesSource = Dataframe | RealtimeCommand

  datatype SeriesInfo = SeriesInfo(
    source: SeriesSource,
    dfId: Option<string>,
    visible: bool,
    xColumn: Option<string>,
    yColumn: Option<string>,
    trackThis: bool)

  /** `SeriesInfo::default`: a visible dataframe series with no columns chosen, not tracked. */
  function DefaultSeriesInfo(): (s: SeriesInfo)
    ensures s.source == Dataframe && s.dfId.None? && s.visible
    ensures s.xColumn.None? && s.yColumn.None? && !s.trackThis
  {
    SeriesInfo(Dataframe, None, true, None, None, false)
  }

  /** `s` without its element at `i`, the rest in order (`Vec::remove`). */
  function RemoveAt<T>(s: seq<T>, i: nat): (r: seq<T>)
    requires i < |s|
    ensures |r| == |s| - 1
    ensures forall j :: 0 <= j < i ==> r[j] == s[j]
    ensures forall j :: i <= j < |r| ==> r[j] == s[j + 1]
  {
    s[..i] + s[i + 1..]
  }

  /** `RemoveAt` loses exactly the removed element. */
  lemma {:induction false} RemoveAtMultiset<T>(s: seq<T>, i: nat)
    requires i < |s|
    ensures multiset(RemoveAt(s, i)) + multiset{s[i]} == multiset(s)
  {
    assert s == s[..i] + [s[i]] + s[i + 1..];
  }

  /** The clicks on one series row of the settings panel. */
  datatype SeriesEdit = SeriesEdit(
    deleteClicked: bool,
    visibleToggled: bool,
    sourceChosen: Option<SeriesSource>,
    xChosen: Option<string>,
    yChosen: Option<string>,
    trackToggled: bool)

  /** One frame of the settings panel; `edits` holds the rows clicked, by position. */
  datatype SettingsInput = SettingsInput(equalAspectToggled: bool, edits: map<nat, SeriesEdit>, addClicked: bool)

  /** The row's widgets applied to its settings. */
  function Edited(info: SeriesInfo, e: SeriesEdit): SeriesInfo {
    info.(
      visible := if e.visibleToggled then !info.visible else info.visible,
      source := if e.sourceChosen.Some? then e.sourceChosen.value else info.source,
      xColumn := if e.xChosen.Some? then e.xChosen else info.xColumn,
      yColumn := if e.yChosen.Some? then e.yChosen else info.yColumn,
      trackThis := if e.trackToggled then !info.trackThis else info.trackThis)
  }

  /** A row shows its widgets only when it has a selector: the first `nSel` rows. */
  function EditRow(infos: seq<SeriesInfo>, nSel: nat, edits: map<nat, SeriesEdit>, i: nat): SeriesInfo
    requires i < |infos|
  {
    if i < nSel && i in edits then Edited(infos[i], edits[i]) else infos[i]
  }

  /**
   * The last row below `n` (and below `nSel`) whose delete button was
   * clicked: later clicks overwrite earlier ones.
   */
  function LastDelete(n: nat, nSel: nat, edits: map<nat, SeriesEdit>): (r: Option<nat>)
    ensures r.Some? ==> r.value < n && r.value < nSel && r.value in edits && edits[r.value].deleteClicked
    ensures r.Some? ==> forall j :: r.value < j < n && j < nSel && j in edits ==> !edits[j].deleteClicked
    ensures r.None? ==> forall j :: 0 <= j < n && j < nSel && j in edits ==> !edits[j].deleteClicked
  {
    if n == 0 then None
    else if n - 1 < nSel && n - 1 in edits && edits[n - 1].deleteClicked then Some(n - 1)
    else LastDelete(n - 1, nSel, edits)
  }

  /** `s` with the deleted position removed, if any. */
  function DropDeleted<T>(s: seq<T>, del: Option<nat>): seq<T>
    requires del.Some? ==> del.value < |s|
  {
    if del.Some? then RemoveAt(s, del.value) else s
  }

  /** The series settings after one frame of the settings panel, and the deleted position. */
  function SettingsStep(infos: seq<SeriesInfo>, nSel: nat, input: SettingsInput): (r: (seq<SeriesInfo>, Option<nat>))
    ensures r.1 == LastDelete(|infos|, nSel, input.edits)
  {
    var edited := seq(|infos|, i requires 0 <= i < |infos| => EditRow(infos, nSel, input.edits, i));
    var del := LastDelete(|infos|, nSel, input.edits);
    (DropDeleted(edited, del) + (if input.addClicked then [DefaultSeriesInfo()] else []), del)
  }

  /**
   * Delete and add act on both vectors alike, so vectors of equal length
   * stay of equal length; at most one row is deleted, the rest keep their
   * order, and an added series has the default settings.
   */
  lemma SettingsKeepsVectorsInStep<T>(infos: seq<SeriesInfo>, sels: seq<T>, input: SettingsInput, added: T)
    requires |infos| == |sels|
    ensures var (after, del) := SettingsStep(infos, |sels|, input);
      && |after| == |DropDeleted(sels, del) + (if input.addClicked then [added] else [])|
      && (del.None? ==> |after| == |infos| + (if input.addClicked then 1 else 0))
      && (del.Some? ==> |after| == |infos| - 1 + (if input.addClicked then 1 else 0))
      && (forall j :: 0 <= j < |infos| && (del.None? || j < del.value) ==>
            after[j] == EditRow(infos, |sels|, input.edits, j))
      && (forall j :: del.Some? && del.value < j < |infos| ==>
            after[j - 1] == EditRow(infos, |sels|, input.edits, j))
      && (input.addClicked ==> after[|after| - 1] == DefaultSeriesInfo())
  {
  }

  /** `extract_series`: the named column, or an empty vector when the frame has none. */
  function ExtractSeries(df: DataFrame, cname: string): (col: seq<real>)
    ensures cname in df.columns ==> col == df.columns[cname]
    ensures cname !in df.columns ==> col == []
  {
    if cname in df.columns then df.columns[cname] else []
  }

  /**
   * The x/y pairing: one point per x value, the i-th taking `ys[i]`.
   * `None` is the out-of-bounds panic when `ys` is shorter than `xs`.
   */
  function Pair(xs: seq<real>, ys: seq<real>): (r: Option<seq<(real, real)>>)
    ensures r.Some? <==> |ys| >= |xs|
    ensures r.Some? ==> |r.value| == |xs| && forall i :: 0 <= i < |xs| ==> r.value[i] == (xs[i], ys[i])
  {
    if |ys| < |xs| then None else Some(seq(|xs|, i requires 0 <= i < |xs| => (xs[i], ys[i])))
  }

  /** Splitting the points again gives back `xs` and the first `|xs|` values of `ys`. */
  lemma PairUnzips(xs: seq<real>, ys: seq<real>)
    requires |ys| >= |xs|
    ensures |Pair(xs, ys).value| == |xs|
    ensures (seq(|xs|, i requires 0 <= i < |xs| => Pair(xs, ys).value[i].0)) == xs
    ensures (seq(|xs|, i requires 0 <= i < |xs| => Pair(xs, ys).value[i].1)) == ys[..|xs|]
  {
  }

  /** The frame a series reads: a registry entry's payload by key, or a realtime frame by key. */
  function LocalFrame(info: SeriesInfo, key: nat, d: seq<CD.Entry>, realtime: map<nat, DataFrame>): (r: Option<DataFrame>)
    ensures info.source == Dataframe ==> r == (if key < |d| then d[key].1 else None)
    ensures info.source == RealtimeCommand ==> r == (if key in realtime then Some(realtime[key]) else None)
  {
    match info.source
    case Dataframe => if key < |d| then d[key].1 else None
    case RealtimeCommand => if key in realtime then Some(realtime[key]) else None
  }

  /** The draw rule: a selector with a key, visible, a frame found, both columns set. */
  predicate Drawable(infos: seq<SeriesInfo>, keys: seq<Option<nat>>, d: seq<CD.Entry>, realtime: map<nat, DataFrame>, i: nat) {
    && i < |infos| && i < |keys| && keys[i].Some?
    && infos[i].visible
    && LocalFrame(infos[i], keys[i].value, d, realtime).Some?
    && infos[i].xColumn.Some? && infos[i].yColumn.Some?
  }

  /** The points of a drawable series; `None` is the pairing panic. */
  function SeriesPoints(infos: seq<SeriesInfo>, keys: seq<Option<nat>>, d: seq<CD.Entry>, realtime: map<nat, DataFrame>, i: nat): Option<seq<(real, real)>>
    requires Drawable(infos, keys, d, realtime, i)
  {
    var df := LocalFrame(infos[i], keys[i].value, d, realtime).value;
    Pair(ExtractSeries(df, infos[i].xColumn.value), ExtractSeries(df, infos[i].yColumn.value))
  }

  /** One series on the plot, named after its y column. */
  datatype Curve = Curve(series: nat, name: string, points: seq<(real, real)>)

  /** The curves drawn so far followed by those still to come, or the panic still to come. */
  function Prepend(done: seq<Curve>, rest: Option<seq<Curve>>): Option<seq<Curve>> {
    if rest.None? then None else Some(done + rest.value)
  }

  /** The draw loop from series `k` on; `None` is a pairing panic. */
  function DrawFrom(infos: seq<SeriesInfo>, keys: seq<Option<nat>>, d: seq<CD.Entry>, realtime: map<nat, DataFrame>, k: nat): Option<seq<Curve>>
    requires k <= |infos|
    decreases |infos| - k
  {
    if k == |infos| then Some([])
    else if !Drawable(infos, keys, d, realtime, k) then DrawFrom(infos, keys, d, realtime, k + 1)
    else match SeriesPoints(infos, keys, d, realtime, k)
      case None => None
      case Some(points) =>
        match DrawFrom(infos, keys, d, realtime, k + 1)
        case None => None
        case Some(rest) => Some([Curve(k, infos[k].yColumn.value, points)] + rest)
  }

  /**
   * A series is drawn exactly when the draw rule admits it, in list order,
   * with its y column as name and its paired points; the loop panics
   * exactly when a drawable series has fewer y values than x values.
   */
  lemma {:induction false} DrawSpec(infos: seq<SeriesInfo>, keys: seq<Option<nat>>, d: seq<CD.Entry>, realtime: map<nat, DataFrame>, k: nat)
    requires k <= |infos|
    ensures DrawFrom(infos, keys, d, realtime, k).None? <==>
      exists i :: k <= i < |infos| && Drawable(infos, keys, d, realtime, i) && SeriesPoints(infos, keys, d, realtime, i).None?
    ensures DrawFrom(infos, keys, d, realtime, k).Some? ==>
      var cs := DrawFrom(infos, keys, d, realtime, k).value;
      && (forall i :: k <= i < |infos| ==> (Drawable(infos, keys, d, realtime, i) <==> exists c :: c in cs && c.series == i))
      && (forall c :: c in cs ==>
            (k <= c.series < |infos| && Drawable(infos, keys, d, realtime, c.series)
             && c.name == infos[c.series].yColumn.value
             && Some(c.points) == SeriesPoints(infos, keys, d, realtime, c.series)))
      && (forall a, b :: 0 <= a < b < |cs| ==> cs[a].series < cs[b].series)
    decreases |infos| - k
  {
    if k < |infos| {
      DrawSpec(infos, keys, d, realtime, k + 1);
    }
  }

  /**
   * A drawable series whose x column is present and non-empty but whose y
   * column is missing from its frame panics the frame: the missing column
   * becomes an empty vector and the pairing indexes past its end.
   */
  lemma MissingYColumnPanics(infos: seq<SeriesInfo>, keys: seq<Option<nat>>, d: seq<CD.Entry>, realtime: map<nat, DataFrame>, i: nat)
    requires Drawable(infos, keys, d, realtime, i)
    requires var df := LocalFrame(infos[i], keys[i].value, d, realtime).value;
      infos[i].xColumn.value in df.columns && |df.columns[infos[i].xColumn.value]| > 0 &&
      infos[i].yColumn.value !in df.columns
    ensures DrawFrom(infos, keys, d, realtime, 0).None?
  {
    DrawSpec(infos, keys, d, realtime, 0);
  }

  /** The plot window's state. */
  class Plotter2D {
    var commonDataframeSelect: DFS.DataFrameSelect
    var equalAspect: bool
    var seriesInfos: seq<SeriesInfo>
    var seriesDfSelectors: seq<DFS.DataFrameSelect>

    /** `Plotter2D::default`: equal aspect, no series. */
    constructor ()
      ensures equalAspect && seriesInfos == [] && seriesDfSelectors == []
      ensures fresh(commonDataframeSelect) && commonDataframeSelect.dataframeIndex == 0
    {
      commonDataframeSelect := new DFS.DataFrameSelect();
      equalAspect := true;
      seriesInfos := [];
      seriesDfSelectors := [];
    }

    /** The rows of the settings panel, for the series that have a selector; returns the last row whose delete was clicked. */
    method EditRows(nSel: nat, edits: map<nat, SeriesEdit>) returns (delIdx: Option<nat>)
      modifies this
      ensures seriesInfos == seq(|old(seriesInfos)|, i requires 0 <= i < |old(seriesInfos)| => EditRow(old(seriesInfos), nSel, edits, i))
      ensures delIdx == LastDelete(|old(seriesInfos)|, nSel, edits)
      ensures seriesDfSelectors == old(seriesDfSelectors) && commonDataframeSelect == old(commonDataframeSelect)
      ensures equalAspect == old(equalAspect)
    {
      delIdx := None;
      var num := |seriesInfos|;
      ghost var infos0 := seriesInfos;
      var idx := 0;
      while idx < num
        invariant 0 <= idx <= num == |seriesInfos| == |infos0|
        invariant forall i :: 0 <= i < idx ==> seriesInfos[i] == EditRow(infos0, nSel, edits, i)
        invariant forall i :: idx <= i < num ==> seriesInfos[i] == infos0[i]
        invariant delIdx == LastDelete(idx, nSel, edits)
        invariant seriesDfSelectors == old(seriesDfSelectors) && commonDataframeSelect == old(commonDataframeSelect)
        invariant equalAspect == old(equalAspect)
      {
        if idx < nSel && idx in edits {
          var e := edits[idx];
          if e.deleteClicked {
            delIdx := Some(idx);
          }
          seriesInfos := seriesInfos[idx := Edited(seriesInfos[idx], e)];
        }
        idx := idx + 1;
      }
    }

    /**
     * The "Plot Settings" panel: the rows' widgets, then the delete of the
     * last clicked row from both vectors, then "Add Series" on both.
     */
    method Settings(input: SettingsInput)
      modifies this
      ensures equalAspect == (old(equalAspect) != input.equalAspectToggled)
      ensures commonDataframeSelect == old(commonDataframeSelect)
      ensures var (after, del) := SettingsStep(old(seriesInfos), |old(seriesDfSelectors)|, input);
        && seriesInfos == after
        && (del.Some? ==> del.value < |old(seriesDfSelectors)|)
        && |seriesDfSelectors| == |DropDeleted(old(seriesDfSelectors), del)| + (if input.addClicked then 1 else 0)
        && seriesDfSelectors[..|DropDeleted(old(seriesDfSelectors), del)|] == DropDeleted(old(seriesDfSelectors), del)
      ensures input.addClicked ==>
        fresh(seriesDfSelectors[|seriesDfSelectors| - 1]) && seriesDfSelectors[|seriesDfSelectors| - 1].dataframeIndex == 0
      ensures |old(seriesInfos)| == |old(seriesDfSelectors)| ==> |seriesInfos| == |seriesDfSelectors|
    {
      if input.equalAspectToggled {
        equalAspect := !equalAspect;
      }
      var delIdx := EditRows(|seriesDfSelectors|, input.edits);
      if delIdx.Some? {
        seriesInfos := RemoveAt(seriesInfos, delIdx.value);
        seriesDfSelectors := RemoveAt(seriesDfSelectors, delIdx.value);
      }
      ghost var kept := seriesDfSelectors;
      if input.addClicked {
        seriesInfos := seriesInfos + [DefaultSeriesInfo()];
        var selector := new DFS.DataFrameSelect();
        seriesDfSelectors := seriesDfSelectors + [selector];
      }
      assert seriesDfSelectors[..|kept|] == kept;
    }

    /**
     * The plot: only when the shared selector yields a frame, every series
     * the draw rule admits, in order. `keys` are the selectors' dataframe
     * keys, one per selector.
     */
    method Draw(common: CD.CommonData, keys: seq<Option<nat>>, realtime: map<nat, DataFrame>, plotShown: bool)
      returns (panicked: bool, curves: seq<Curve>)
      requires |keys| == |seriesDfSelectors|
      ensures !plotShown ==> !panicked && curves == []
      ensures plotShown ==>
        var r := DrawFrom(seriesInfos, keys, common.dataframes, realtime, 0);
        && panicked == r.None?
        && (!panicked ==> curves == r.value)
    {
      curves := [];
      if !plotShown {
        return false, curves;
      }
      var infos := seriesInfos;
      var d := common.dataframes;
      var k := 0;
      assert DrawFrom(infos, keys, d, realtime, 0).Some? ==> [] + DrawFrom(infos, keys, d, realtime, 0).value == DrawFrom(infos, keys, d, realtime, 0).value;
      while k < |infos|
        invariant 0 <= k <= |infos|
        invariant DrawFrom(infos, keys, d, realtime, 0) == Prepend(curves, DrawFrom(infos, keys, d, realtime, k))
      {
        if k >= |keys| {
          k := k + 1;
          continue;
        }
        var dfId := keys[k];
        if dfId.None? {
          k := k + 1;
          continue;
        }
        var sInfo := infos[k];
        if !sInfo.visible {
          k := k + 1;
          continue;
        }
        var localDf := LocalFrame(sInfo, dfId.value, d, realtime);
        if localDf.Some? && sInfo.xColumn.Some? && sInfo.yColumn.Some? {
          var xs := ExtractSeries(localDf.value, sInfo.xColumn.value);
          var ys := ExtractSeries(localDf.value, sInfo.yColumn.value);
          if |ys| < |xs| {
            return true, curves;
          }
          var xys := [];
          var i := 0;
          while i < |xs|
            invariant 0 <= i <= |xs| && |xys| == i
            invariant forall j :: 0 <= j < i ==> xys[j] == (xs[j], ys[j])
          {
            xys := xys + [(xs[i], ys[i])];
            i := i + 1;
          }
          assert Pair(xs, ys).Some? && xys == Pair(xs, ys).value;
          ghost var rest := DrawFrom(infos, keys, d, realtime, k + 1);
          assert rest.Some? ==> (curves + [Curve(k, sInfo.yColumn.value, xys)]) + rest.value
                                == curves + ([Curve(k, sInfo.yColumn.value, xys)] + rest.value);
          curves := curves + [Curve(k, sInfo.yColumn.value, xys)];
        }
        k := k + 1;
      }
      panicked := false;
    }
  }
}
