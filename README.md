# h_analyzer_frontend: the data-lifecycle core in Dafny

This project models the client-side bookkeeping of h_analyzer_frontend, an
egui visualisation client. The client browses a remote filesystem and loads
dataframes from a gRPC backend. Each frame, the UI turns clicks into
intents. The core is what those intents do to the shared state:

- **`CommonData`**, the dataframe registry. It holds a list of
  `(DataFrameInfo, Option<DataFrame>)` entries and one load slot. Its
  per-frame `update` does three things:
  - adopts the default path;
  - commits a finished load into the entry it was issued for;
  - moves every `LOAD_NOW` entry to `LOADING` and issues a load for it.
- **The load descriptor** (`DataFrameInfo`). It has a constructor, an
  ordering, an equality, the `get_filename` helper and the load dialog's
  intents.
- **The file explorer**. It keeps its checkbox map in step with the listing,
  navigates to the parent or into a child directory, picks a file for the
  dialog, and gates "Load as ROSBAG2" on exactly one checked directory.
- **The dataframe selector**: which registry entry it returns, and when it
  panics.
- **The 2-D plotter's series list**: two parallel vectors kept in step by add
  and delete, the rule that decides which series are drawn, and the x/y
  pairing.
- **The older single-window `TemplateApp`**. It has its own filesystem cache,
  a pick-file / "Load File" dialog, a map of frames by file name, and the path
  swap of `save`.
- **The client side of the backend calls**. Requests are built from their
  arguments, the `DataFrameType` is mapped to the wire type, and a streamed
  dataframe is reassembled from its chunks before one decode.

Remote calls are promises. A promise is the request it was issued for plus a
poll state: `Pending`, or `Ready` with a success value or a `Status`. Clicks
are input values. Every `unwrap` that can fail on the modelled values is
modelled as a panic outcome, never as a precondition; the few taken to
succeed are named under "## Left out". Paths follow the Unix algorithms of Rust's
`std::path` (`file_name`, `parent`, `join`), which module `RustPath`
restates over strings. `String` ordering and `Vec::sort` are in module
`StrOrder`.

Each core file is a Dafny module:

- `common_data.dfy` (`CommonData`)
- `modal_window.dfy` (`ModalWindow`)
- `explorer.dfy` (`Explorer`)
- `dataframe_select.dfy` (`DataFrameSelect`)
- `plotter_2d.dfy` (`Plotter2D`)
- `app.dfy` (`App`)
- `backend_talk.dfy` (`BackendTalk`)

`fs_cache.dfy` holds the default-path step that `common_data.rs` and
`app.rs` both contain.

The code is written one way throughout:

- Each object whose fields the source updates in place is a `class`:
  `CommonData`, `Explorer`, `DataFrameSelect`, `Plotter2D` and `TemplateApp`.
- Each per-frame method is proved equal to a step function on a value
  snapshot (`Model()` / `ViewOf()`). Examples are `CommonData.UpdateStep`,
  `Explorer.ShowStep` and `App.UpdateStep`.
- The source's promises are lemmas about those step functions.

Rust enum variants are written in Dafny case: `LOAD_NOW` is `LoadNow`,
`FILESYSTEM` is `Filesystem`, `COMMA_SEP` is `CommaSep`.

Notable behaviour of the code, which the model keeps:

- `update` does not keep a single loading record or a FIFO queue. Every
  `LOAD_NOW` entry becomes `LOADING` in the same frame, each issues a request,
  and the load slot keeps only the last of them.
- The slot is not cleared when its load completes. No entry ever reaches
  `LOADED`, and a failed load is ignored rather than marking the entry failed.
- A bad byte stream panics in `bincode::deserialize_from(..).unwrap()`
  instead of yielding a typed error.
- There is no cancellation state.
- A directory row that is both checked and double-clicked in one frame is
  joined twice: `show` moves the current path into it before the selection
  joins its name again, so "Load as ROSBAG2" receives `current/d/d`.
- A ".." double-click moves the current path to the parent before the
  directory rows run, so a checked directory `d` of the listing on screen is
  handed to "Load as ROSBAG2" as `parent/d`.

## Model

| member | source | states |
|---|---|---|
| CommonData.Default | src/common_data.rs:25-40 | a fresh registry is empty, has no load slot, both paths are "/", and a listing of "/" and the default path are requested |
| CommonData.CommonData.constructor | src/common_data.rs:25-40 | the constructed object's snapshot is `Default()` |
| FsCache.Startup | src/common_data.rs:27-39 | startup paths are "/", with a pending listing request for "/" and a pending default-path request |
| FsCache.ResolveDefaultPath | src/common_data.rs:45-53 | panics exactly when the default-path promise is ready with an error; when it is ready with a path, both paths become it, a listing for it is requested and the promise is dropped; a pending or absent promise changes nothing |
| FsCache.ResolveSettles | src/common_data.rs:45-53 | once the default path is adopted, a second step changes nothing |
| CommonData.CommitLoad | src/common_data.rs:56-68 | a successful load writes its frame into the entry its index names and nowhere else; the descriptors and the entry count are kept; an index outside the list, a pending load or a failed load writes nothing |
| CommonData.CommitLoadIdempotent | src/common_data.rs:56-68 | committing the same ready load twice equals committing it once, so the uncleared slot is harmless |
| CommonData.LastLoadNow | src/common_data.rs:70-79 | finds the highest index in `LoadNow`, or none when no entry is |
| CommonData.DispatchFrom | src/common_data.rs:70-79 | definition: the dispatch loop from entry `i` on, panicking at a `LoadNow` entry without a file name; its properties are the `Dispatch…` lemmas below |
| CommonData.RequestFor | src/common_data.rs:75-76 | definition: the load call for an entry, its path and its type; see `UpdateTagsLastLoad` |
| CommonData.Settled | src/common_data.rs:78 | definition: `LoadNow` becomes `Loading`, every other state is kept; see `DispatchSettles` and `UpdateSettlesEntries` |
| CommonData.DispatchSettles | src/common_data.rs:70-80 | the dispatch loop keeps the entry count, payloads, paths and types, and turns `LoadNow` into `Loading`, leaving every other state unchanged |
| CommonData.DispatchPanics | src/common_data.rs:70-79 | the loop panics exactly when a `LoadNow` entry's path has no file name (the `get_filename` unwrap) |
| CommonData.DispatchTagsLastLoad | src/common_data.rs:70-79 | the slot ends up holding the request of the last `LoadNow` entry reached |
| CommonData.DispatchIdle | src/common_data.rs:70-80 | with no `LoadNow` entry left, the loop changes nothing and keeps the slot |
| CommonData.UpdateStep | src/common_data.rs:44-81 | definition: one `update` as the default-path step, the load commit and the dispatch loop in source order; its properties are the `Update…` lemmas below |
| CommonData.UpdatePanics | src/common_data.rs:44-81 | `update` panics exactly on a failed default-path call or a `LoadNow` entry without a file name |
| CommonData.UpdateSettlesEntries | src/common_data.rs:70-80 | after `update`: no entry is in `LoadNow`; every former `LoadNow` entry is `Loading`; every other state is unchanged, so `Loaded` and `OpenModalWindow` are never produced; the entry count, paths and types are kept |
| CommonData.UpdateCommitsLoad | src/common_data.rs:56-68 | a successful load lands in the entry its slot names and no other payload changes; an index outside the list changes no payload |
| CommonData.UpdateTagsLastLoad | src/common_data.rs:70-77 | the slot is tagged with the highest `LoadNow` index and a request for that entry's path and type, which overwrites the earlier requests of the frame; with no `LoadNow` entry the slot is unchanged |
| CommonData.LastLoadNowDependsOnInfos | src/common_data.rs:56-79 | the load commit, which touches only payloads, does not change which entry is dispatched last |
| CommonData.UpdateAdoptsDefaultPath | src/common_data.rs:45-53 | the paths after `update` are those of the default-path step |
| CommonData.UpdateIdempotent | src/common_data.rs:44-81 | the slot is not cleared on completion, yet a second `update` on the result changes nothing |
| CommonData.CommonData.Update | src/common_data.rs:44-81 | the in-place `update` (field writes, payload write, dispatch loop over the entries) yields exactly `UpdateStep` of the old state and its panic flag |
| ModalWindow.New | src/components/modal_window.rs:29-35 | `DataFrameInfo::new(p)` has path `p`, type `Ndev` and state `OpenModalWindow` |
| ModalWindow.Cmp | src/components/modal_window.rs:38-42 | definition: `cmp` compares the paths only; see `CmpEqualIffSamePath` and `CmpReverse` |
| ModalWindow.Eq | src/components/modal_window.rs:50-55 | definition: the hand-written `==` compares path, type and state; see `EqFinerThanCmp` |
| ModalWindow.PartialCmp | src/components/modal_window.rs:44-48 | `partial_cmp` is always `Some` |
| ModalWindow.CmpEqualIffSamePath | src/components/modal_window.rs:38-48 | `cmp` and `partial_cmp` say `Equal` exactly for descriptors with the same path |
| ModalWindow.CmpReverse | src/components/modal_window.rs:38-42 | swapping the operands of `cmp` reverses the ordering |
| ModalWindow.EqFinerThanCmp | src/components/modal_window.rs:38-55 | `==` implies `cmp` is `Equal`, but two descriptors with one path and different types compare `Equal` while `==` is false |
| ModalWindow.GetFilename | src/components/modal_window.rs:59-63 | the result, when there is one, is a plain final component, never ".."; for "/" there is none (the unwrap panics) |
| ModalWindow.ChosenType | src/components/modal_window.rs:84-110 | definition: the type after the radios, the last clicked in source order winning; see `Show` |
| ModalWindow.Show | src/components/modal_window.rs:76-115 | the dialog panics exactly when the path has no file name; otherwise the path is kept, the type is the last radio clicked, and "Load File" sets `LoadNow` while no other field changes |
| StrOrder.CmpEqualIff | src/components/modal_window.rs:38-42 | string `cmp` is `Equal` exactly for equal strings |
| StrOrder.Cmp | src/components/modal_window.rs:38-42 | definition: `String::cmp`, lexicographic over characters; see `CmpEqualIff` and `CmpReverse` |
| StrOrder.CmpReverse | src/components/modal_window.rs:38-42 | swapping the operands of string `cmp` reverses the ordering |
| StrOrder.SortSpec | src/components/explorer.rs:81-82 | `fsvec.sort()` yields an ascending permutation of the listed files |
| StrOrder.Sort | src/components/explorer.rs:81-82 | definition: the result of `fsvec.sort()`, built by insertion; see `SortSpec` |
| StrOrder.InsertSorted | src/components/explorer.rs:81-82 | inserting into a sorted list keeps it sorted and adds exactly the new element |
| RustPath.FileNameOfJoin | src/components/explorer.rs:119-121 | the file name of a directory joined with a plain entry name is that name |
| RustPath.FileNameOfDotDotJoin | src/components/modal_window.rs:59-63 | a path ending in ".." has no file name, so `get_filename` of it panics |
| RustPath.ParentOfJoin | src/components/explorer.rs:84-105 | entering a child directory and taking the parent leads back to the directory, less any trailing "/" and "." segments |
| RustPath.ParentIsShorterPrefix | src/components/explorer.rs:84-94 | a parent is a strictly shorter prefix of the path |
| RustPath.RootHasNoParentOrName | src/components/explorer.rs:84-94 | "/" and "" have neither a parent (".." is not offered) nor a file name |
| RustPath.Parent | src/components/explorer.rs:84-88 | definition: `Path::parent` over Unix paths, as the ".." row uses it; see `ParentOfJoin`, `ParentIsShorterPrefix` and `RootHasNoParentOrName` |
| RustPath.FileName | src/components/modal_window.rs:59-63 | definition: `Path::file_name`, None for "/", "" and a trailing ".."; see `FileNameOfJoin` and `FileNameOfDotDotJoin` |
| RustPath.Join | src/components/explorer.rs:100-110 | definition: `Path::join`, which replaces the base with an absolute name and otherwise inserts one "/"; see `FileNameOfJoin` and `ParentOfJoin` |
| BackendTalk.RequestDefaultPath | src/backend_talk.rs:21-32 | a fresh pending default-path request |
| BackendTalk.RequestList | src/backend_talk.rs:34-49 | a fresh pending listing request carrying the path verbatim |
| BackendTalk.WireTypeBijective | src/backend_talk.rs:95-99 | the mapping to the wire type is one-to-one and reaches every wire type |
| BackendTalk.WireType | src/backend_talk.rs:95-99 | definition: the `match df_type` onto the wire enum; see `WireTypeBijective` |
| BackendTalk.LoadRequestFor | src/backend_talk.rs:101-104 | the load request carries the path unchanged as `filename`, with the mapped type |
| BackendTalk.LoadDfRequest | src/backend_talk.rs:84-104 | `load_df_request` yields a pending promise for exactly that request |
| BackendTalk.FirstFailure | src/backend_talk.rs:105-112 | there is no failure exactly when every stream message succeeded |
| BackendTalk.Payload | src/backend_talk.rs:107-112 | definition: the bytes of the successful messages in arrival order; see `PayloadSize`, `PayloadAppend` and `PayloadKeepsChunkOrder` |
| BackendTalk.LoadResult | src/backend_talk.rs:105-113 | definition: the failed call, else the first failed message, else one decode of the whole buffer; see `LoadDataFrame` and `FailureSkipsDecode` |
| BackendTalk.LoadDataFrame | src/backend_talk.rs:84-116 | the load task pushes every chunk's bytes onto one buffer and ends as `LoadResult`: the first failure aborts, otherwise one decode of the whole buffer |
| BackendTalk.PayloadSize | src/backend_talk.rs:107-112 | the buffer is as long as all chunks together; an empty stream gives an empty buffer |
| BackendTalk.PayloadAppend | src/backend_talk.rs:107-112 | reassembly distributes over splitting the stream |
| BackendTalk.PayloadKeepsChunkOrder | src/backend_talk.rs:107-112 | each chunk sits unchanged in the buffer, right after the bytes of the chunks before it |
| BackendTalk.FailureSkipsDecode | src/backend_talk.rs:105-113 | a failed call or message aborts with a status and the decoder is never consulted |
| Explorer.SyncCheckedMap | src/components/explorer.rs:66-79 | a pending listing clears the map; a ready listing fills an empty map with exactly the listed directories and files, all unchecked; a non-empty map or a failed listing is kept |
| Explorer.StepDir | src/components/explorer.rs:97-113 | one directory row flips its own checkbox on a click, counts it if checked, and joins the name onto the path on a double-click |
| Explorer.StepFile | src/components/explorer.rs:114-124 | definition: one file row toggles its box on a click and points the dialog at `current/file` on a double-click; see `ScanFiles`, `PickOne` and `NoToggleFiles` |
| Explorer.ScanDirs | src/components/explorer.rs:97-113 | the directory loop panics exactly when a listed name is missing from the map; it keeps the map's keys and every unlisted checkbox, never lowers the count, and records a selected directory whenever it counts one |
| Explorer.ScanFiles | src/components/explorer.rs:114-125 | the file loop panics exactly when a listed name is missing from the map, and keeps the map's keys |
| Explorer.ScanFilesKeepsOthers | src/components/explorer.rs:114-125 | the file loop changes no checkbox but those of the files it lists |
| Explorer.LastChecked | src/components/explorer.rs:106-112 | finds the last checked directory in listing order, or none when no directory is checked |
| Explorer.ScanDirsCount | src/components/explorer.rs:106-112 | with distinct names, `n_selected_dir` equals the number of listed directories checked after the loop |
| Explorer.ScanDirsSelected | src/components/explorer.rs:106-112 | without double-clicks, `selected_dir` is the full path of the last checked directory |
| Explorer.CountOne | src/components/explorer.rs:137-141 | with exactly one checked directory, it is the last checked one and no other is checked |
| Explorer.CountZero | src/components/explorer.rs:106-112 | a count of zero means no listed directory is checked |
| Explorer.CountSameOnListed | src/components/explorer.rs:106-112 | the count depends only on the listed directories' checkboxes |
| Explorer.NoToggleDirs | src/components/explorer.rs:97-100 | without checkbox clicks the directory loop keeps the map |
| Explorer.NoToggleFiles | src/components/explorer.rs:114-118 | without checkbox clicks the file loop keeps the map |
| Explorer.EnterOne | src/components/explorer.rs:98-105 | double-clicking one directory joins exactly its name onto the path |
| Explorer.PickOne | src/components/explorer.rs:114-124 | double-clicking one file sets the dialog input to the path joined with that file |
| Explorer.SortedFilesListed | src/components/explorer.rs:81-82 | every name in the sorted file list is a listed file |
| Explorer.ShowIsListingStep | src/components/explorer.rs:62-135 | on a ready listing, a frame is the listing rows over the synchronised map |
| Explorer.ShowClearsWhilePending | src/components/explorer.rs:52-70 | while the Files tab waits for its listing (also right after "refresh"), the map is emptied, nothing panics and no ROSBAG2 load fires |
| Explorer.ShowFillsFreshMap | src/components/explorer.rs:71-79 | a listing arriving at an empty map fills it with exactly the listed names, so no row panics; without clicks they all stay unchecked |
| Explorer.ShowGoesToParent | src/components/explorer.rs:84-133 | without directory double-clicks, ".." moves to the parent and requests its listing; without a parent the double-click changes nothing |
| Explorer.ShowEntersDirectory | src/components/explorer.rs:97-133 | double-clicking one directory moves into `current/dir` and requests that listing |
| Explorer.ShowPicksFile | src/components/explorer.rs:114-124 | without ".." or directory double-clicks, double-clicking one file sets the dialog input to `current/file` (sorted position) and leaves the path and the listing alone |
| Explorer.ShowRosbagGate | src/components/explorer.rs:97-141 | for any clicks, "Load as ROSBAG2" fires exactly when clicked with one listed directory checked at the end of the frame |
| Explorer.ShowRosbagPath | src/components/explorer.rs:97-141 | without ".." or directory double-clicks, the handed-over directory is the full path of a checked listed directory |
| Explorer.ShowRosbagJoinsEnteredDirTwice | src/components/explorer.rs:97-141 | a lone listed directory that is checked and double-clicked is handed over as `current/d/d`, because the row moves the path before the selection joins the name |
| Explorer.ShowRosbagAfterParent | src/components/explorer.rs:84-141 | after a ".." double-click and without directory double-clicks, the handed-over directory is a checked listed name joined onto the parent, not onto the path the listing was taken from |
| Explorer.JoinTwiceExample | src/components/explorer.rs:100-110 | illustration of `ShowRosbagJoinsEnteredDirTwice`: from "/home", the checked and entered "a" becomes "/home/a/a" |
| Explorer.DistinctParts | src/components/explorer.rs:71-79 | distinct listing names are distinct within the directories, and no directory is also a file |
| Explorer.ListingRosbagCount | src/components/explorer.rs:97-141 | for any clicks, the file loop leaves the directories' boxes alone and the count equals the listed directories checked at the end of the frame |
| Explorer.ListingRosbagGate | src/components/explorer.rs:97-141 | without directory double-clicks, over both loops the path stays put, the count equals the checked directories and a single selection is the full path of a checked directory |
| Explorer.ShowStaysPut | src/components/explorer.rs:84-133 | without double-clicks or "refresh", the path and the listing request are kept |
| Explorer.ListingStep | src/components/explorer.rs:71-141 | definition: the rows of a ready listing (".." row, directory loop, sorted file loop, listing request, ROSBAG2 button); see the `Show…` lemmas |
| Explorer.ShowStep | src/components/explorer.rs:31-185 | definition: one frame of `show` by tab; see `ShowIsListingStep`, `ShowDataframeTab` and the other `Show…` lemmas |
| Explorer.RosbagGate | src/components/explorer.rs:137-141 | definition: the button loads the selected directory only when clicked with exactly one counted; see `ShowRosbagGate` |
| Explorer.RowPanics | src/components/explorer.rs:147-149 | definition: a DataFrames row panics on a missing id or a path without a file name; see `DataframeTabPanics` |
| Explorer.DataframeTabPanics | src/components/explorer.rs:143-182 | the DataFrames tab panics exactly when some row of `latest_df_info_map` has no id or a path without a file name |
| Explorer.ShowDataframeTab | src/components/explorer.rs:143-182 | on the DataFrames tab a frame panics exactly when some row has no id or no file name, and changes nothing but the tab |
| Explorer.Explorer.constructor | src/components/explorer.rs:21-28 | the default explorer is on the Files tab with an empty map |
| Explorer.Explorer.SyncChecked | src/components/explorer.rs:66-79 | the in-place clear and inserts yield `SyncCheckedMap` |
| Explorer.Explorer.WalkDirs | src/components/explorer.rs:97-113 | the in-place directory loop yields `ScanDirs` |
| Explorer.Explorer.VisitDir | src/components/explorer.rs:97-111 | one directory row toggles its checkbox, follows its double-click and counts it when checked, as `StepDir` |
| Explorer.Explorer.WalkFiles | src/components/explorer.rs:114-125 | the in-place file loop yields `ScanFiles` |
| Explorer.Explorer.ShowListing | src/components/explorer.rs:71-135 | the rows of a ready listing yield `ListingStep`, and the registry's other fields are untouched |
| Explorer.Explorer.ShowDataframes | src/components/explorer.rs:143-182 | the row loop of the DataFrames tab panics exactly as `DataframeTabPanics` says |
| Explorer.Explorer.Show | src/components/explorer.rs:31-142 | one frame of `show` yields `ShowStep` of the old view; it writes only the tab, the map, the current path and the listing request |
| DataFrameSelect.SelectedFrame | src/components/dataframe_select.rs:46-51 | definition: the frame at the index when that entry exists and is loaded, the empty default frame otherwise |
| DataFrameSelect.ComboFrom | src/components/dataframe_select.rs:37-42 | the combo panics exactly when a loaded entry has no file name; the index moves only to a clicked, loaded entry |
| DataFrameSelect.SelectStep | src/components/dataframe_select.rs:20-52 | definition: one `select`, with its two unwraps and the combo box; see `SelectPanics`, `SelectChoosesLoaded` and `SelectEmptyRegistry` |
| DataFrameSelect.SelectPanics | src/components/dataframe_select.rs:26-30 | `select` panics exactly when the registry is non-empty and the index is out of range, the current entry has no file name, or the open combo lists a loaded entry without one |
| DataFrameSelect.SelectChoosesLoaded | src/components/dataframe_select.rs:37-51 | a user choice always points at a loaded entry and returns its frame; without a usable click the index stays; the result is the frame at the final index |
| DataFrameSelect.SelectEmptyRegistry | src/components/dataframe_select.rs:25-51 | an empty registry yields the empty frame and never panics, whatever the index |
| DataFrameSelect.DataFrameSelect.constructor | src/components/dataframe_select.rs:13-17 | the default index is 0 |
| DataFrameSelect.DataFrameSelect.Select | src/components/dataframe_select.rs:20-52 | `select` yields `SelectStep`, changing only the index; the registry is not in its frame |
| Plotter2D.DefaultSeriesInfo | src/components/plotter_2d.rs:26-37 | a new series reads a dataframe, is visible, has no columns chosen and is not tracked |
| Plotter2D.RemoveAt | src/components/plotter_2d.rs:159-162 | `Vec::remove` drops exactly index `i` and keeps the rest in order |
| Plotter2D.RemoveAtMultiset | src/components/plotter_2d.rs:159-162 | removal loses exactly the removed element |
| Plotter2D.LastDelete | src/components/plotter_2d.rs:101-115 | the deleted index is the last row with a selector whose delete was clicked, or none |
| Plotter2D.Edited | src/components/plotter_2d.rs:101-157 | definition: a row's widgets set its source, visibility, columns and tracking from the frame's edit; see `EditRows` |
| Plotter2D.EditRow | src/components/plotter_2d.rs:101-157 | definition: only a row that has a selector is edited; see `EditRows` and `SettingsStep` |
| Plotter2D.DropDeleted | src/components/plotter_2d.rs:159-162 | definition: the `Vec::remove` of the deleted index, when there is one; see `RemoveAt`, `RemoveAtMultiset` and `SettingsKeepsVectorsInStep` |
| Plotter2D.SettingsStep | src/components/plotter_2d.rs:101-169 | a settings frame deletes at most the index `LastDelete` picks |
| Plotter2D.SettingsKeepsVectorsInStep | src/components/plotter_2d.rs:159-169 | delete and add act on both vectors alike, so equal lengths stay equal; at most one row goes, the rest keep their order, and an added series has the default settings |
| Plotter2D.ExtractSeries | src/components/plotter_2d.rs:188-200 | definition: the named column, or an empty vector when the frame has none |
| Plotter2D.Pair | src/components/plotter_2d.rs:243-244 | pairing succeeds exactly when `ys` is at least as long as `xs`, and then yields `|xs|` points, the i-th being `(xs[i], ys[i])` |
| Plotter2D.PairUnzips | src/components/plotter_2d.rs:243-244 | unzipping the points gives back `xs` and the first `|xs|` values of `ys` |
| Plotter2D.LocalFrame | src/components/plotter_2d.rs:218-237 | definition: a dataframe series reads the registry entry's payload by key; a realtime series reads the realtime map by key |
| Plotter2D.Drawable | src/components/plotter_2d.rs:204-237 | definition: a series is drawn when it has a keyed selector, is visible, its frame is found and both columns are set; see `DrawSpec` |
| Plotter2D.SeriesPoints | src/components/plotter_2d.rs:238-244 | definition: the pairing of the x and y columns of a drawable series; see `DrawSpec` and `MissingYColumnPanics` |
| Plotter2D.DrawFrom | src/components/plotter_2d.rs:202-264 | definition: the draw loop from series `k` on with its `continue` guards; see `DrawSpec` |
| Plotter2D.DrawSpec | src/components/plotter_2d.rs:204-262 | a series is drawn exactly when it has a keyed selector, is visible, its frame is found and both columns are set; drawing keeps list order, names the curve after the y column and uses the paired points; the loop panics exactly when a drawable series pairs short |
| Plotter2D.MissingYColumnPanics | src/components/plotter_2d.rs:188-244 | a drawable series whose x column is non-empty and whose y column is missing panics the frame |
| Plotter2D.Plotter2D.constructor | src/components/plotter_2d.rs:49-58 | the default plotter has equal aspect, no series, and a selector at index 0 |
| Plotter2D.Plotter2D.EditRows | src/components/plotter_2d.rs:101-157 | the row loop edits only the rows with a selector and returns `LastDelete` |
| Plotter2D.Plotter2D.Settings | src/components/plotter_2d.rs:96-170 | the settings panel yields `SettingsStep` on the infos and the same delete and add on the selectors; the added selector is fresh at index 0, and equal lengths stay equal |
| Plotter2D.Plotter2D.Draw | src/components/plotter_2d.rs:202-264 | the draw loop with its `continue` guards yields `DrawFrom`, and draws nothing when the shared selector yields no frame |
| App.Default | src/app.rs:51-74 | `TemplateApp::default` has both paths "/", the dialog closed, no pending file or type, no load, an empty map, and both startup requests pending |
| App.UntypedLoadDfRequest | src/app.rs:162-168 | the one-argument load call yields a pending request that carries the path and no type |
| App.SaveSnapshot | src/app.rs:103-108 | the persisted state has `current_path == default_path` and is otherwise the app's state |
| App.Persist | src/app.rs:24-49 | definition: the state without its `#[serde(skip)]` fields (backend, load slot, both promises); see `SaveSnapshot` |
| App.ModalStep | src/app.rs:122-170 | the dialog panics exactly when the pending file has no name; "Load File" with a pending file records `(name, request)`, clears the file and closes the dialog; otherwise the slot, the file and the open flag are unchanged; the radios set the type, and the layout flag, the tab, the map and the paths are kept |
| App.ModalRadiosSetType | src/app.rs:136-161 | without "Load File", the radios set the type (KITTI after NDEV wins) and nothing else |
| App.ModalLoadFile | src/app.rs:136-168 | "Load File" with a named pending file gives the whole new state: the radio-chosen type, the load recorded under the file name, no pending file, the dialog closed, all else unchanged |
| App.ModalIgnoresType | src/app.rs:136-166 | the chosen type never reaches the load request |
| App.PickOne | src/app.rs:240-249 | double-clicking one file picks `current/file` |
| App.EnterDirs | src/app.rs:231-239 | definition: the directory loop, joining each double-clicked name onto the path in listing order; see `EnterNone` and `PanelDotDotJoinsLiteral` |
| App.PickFiles | src/app.rs:240-250 | definition: the file loop over the sorted names, the last double-clicked file winning; see `PickOne`, `PickNone` and `PanelPicksFile` |
| App.EnterNone | src/app.rs:231-239 | without double-clicked directory rows the loop leaves the path as it was |
| App.PickNone | src/app.rs:240-250 | without double-clicked file rows the loop picks nothing new |
| App.PanelPicksFile | src/app.rs:240-249 | double-clicking a file opens the dialog on `current/file` and leaves the paths and the listing alone |
| App.PanelDotDotJoinsLiteral | src/app.rs:222-257 | ".." joins a literal ".." onto the path: the result is longer than the path, so it is never the parent, it has no file name, and its listing is requested |
| App.PanelIdle | src/app.rs:193-260 | the side panel changes nothing while the dialog is open, nor without clicks on a ready listing |
| App.PanelStep | src/app.rs:193-266 | definition: one frame of the side panel; see `PanelPicksFile`, `PanelDotDotJoinsLiteral` and `PanelIdle` |
| App.CommitLoad | src/app.rs:273-276 | definition: the table window's insert of a ready load; see `CommitLoadSpec` |
| App.CommitLoadSpec | src/app.rs:273-276 | a successful load is inserted under its file name, other names are untouched, and repeating the insert is idempotent; otherwise the state is unchanged |
| App.PlotStep | src/app.rs:313-352 | the sine fallback exactly while no load is ready; points only for a successful load having both columns, as the pairing of `column_4` with `column_8` |
| App.PlotPanics | src/app.rs:313-338 | a ready load panics the plot exactly when it failed, lacks `column_4` or `column_8`, or `column_8` is the shorter |
| App.UpdatePanics | src/app.rs:111-367 | a frame panics exactly on a failed default-path call, an unnamed pending file under the open dialog, or a plot unwrap; otherwise the windows are marked organized |
| App.UpdateLoadsPickedFile | src/app.rs:162-168 | "Load File" on a named pending file puts a pending untyped request under its name in the slot without panicking, and the file is cleared unless a new one was picked in the same frame |
| App.UpdateStep | src/app.rs:111-367 | definition: one frame as default path, dialog, side panel, table, plot and layout reset in source order; see `UpdatePanics` and `UpdateLoadsPickedFile` |
| App.TemplateApp.constructor | src/app.rs:51-74 | the constructed app's snapshot is `Default()` |
| App.TemplateApp.Save | src/app.rs:103-108 | `save` stores `SaveSnapshot` and restores the current path afterwards |
| App.TemplateApp.ResolveDefaultPath | src/app.rs:112-120 | the duplicated default-path step yields `FsCache.ResolveDefaultPath` |
| App.TemplateApp.ShowModal | src/app.rs:122-170 | the dialog's field writes yield `ModalStep` |
| App.TemplateApp.WalkDirs | src/app.rs:222-239 | the ".." row and the directory loop yield `EnterDirs`, and report whether any of those rows was double-clicked |
| App.TemplateApp.WalkFiles | src/app.rs:240-249 | the file loop opens the dialog on the last double-clicked file |
| App.TemplateApp.ShowSidePanel | src/app.rs:193-266 | the side panel yields `PanelStep` |
| App.TemplateApp.ShowTable | src/app.rs:273-276 | the table window's insert yields `CommitLoad` |
| App.TemplateApp.PlotPoints | src/app.rs:313-352 | the plot window's points are `PlotStep` of the load slot |
| App.TemplateApp.Update | src/app.rs:111-367 | one frame yields `UpdateStep`: default path, dialog, side panel, table, plot, layout reset |

## Left out

- Rendering: egui windows, labels, combo boxes, scroll areas and the dataframe tables (`default_table`, `display_dataframe`) are not modelled. A click is an input value and a drawn curve is an output value. Every window is taken to be expanded: egui does not run the contents of a collapsed window, so in the source the table insert (src/app.rs:276), the plot unwraps (src/app.rs:313-338) and the dialog's `file_name().unwrap()` (src/app.rs:129) happen only while their window is open, whereas the model always runs them.
- src/components/dataframe_table.rs is not part of this model. It holds `ENUTransform`, which is floating-point geodesy, and the column-selection widget state.
- Floating point: the `f64` casts of columns, the ±0.1 track-mode plot bounds and the sine fallback curve are left out. Column values are `real`s, and the fallback is the outcome `Wave`.
- Networking: the gRPC clients, `Promise::spawn_local`, the server address and async awaiting are left out. A promise is its request plus a poll state that the runtime moves from `Pending` to `Ready`.
- Decoding: `bincode::deserialize_from` is a parameter of `LoadDataFrame`. Its `unwrap` panic is the outcome `DecodePanic`.
- Locking: the `Arc<Mutex<CommonData>>` lock in `Explorer::show` is assumed to succeed. The early return on a poisoned lock is not modelled.
- Persistence: the eframe/serde machinery is left out. Only the value that `save` hands to storage is modelled, as `Persisted`.
- build.rs only compiles protobuf definitions and is not part of this model.
- Members absent from the shown `CommonData` and `DataFrameSelect` are inputs and outputs, not state. Absent ones used as reads are inputs: `latest_df_info_map`, `required_dataframes`, `realtime_dataframes` and `dataframe_key` (`keys` of `Plotter2D.Draw`).
- Absent ones that are written or called are outputs: `modal_window_input_opt` (`modalInput`) and `load_rosbag2` (`rosbagLoad`).
- The DataFrames tab of the explorer is modelled only for its panics (the `id` unwraps and `get_filename` of each row), which need the rows of `latest_df_info_map` as input; what it renders is left out. The Rosbags tab is empty.
- Plotter2D.Settings: `select_df`, `select_backend_df` and the column combo boxes are not modelled. A row's source, visibility, column and tracking choices are inputs (`SeriesEdit`).
- Plotter2D: `show` is modelled as `Settings` followed by `Draw`. The frame the shared selector yields is the `plotShown` input.
- Explorer.Explorer.WalkDirs: the current path is carried in a local variable through the directory loop and written to the registry after the loop. Nothing reads it in between, so the written value is the same.
- App: the top panel's "Quit" menu and the theme buttons only act on the window, so they are left out.
- App: the Dataframes tab of the side panel only renders checkboxes, so it is not modelled beyond the tab switch.
- App: the plot's unused "Select DataFrame" combo box is left out.
- App.PlotStep: the plot's `cast(Float64)` and `f64()` unwraps are taken to succeed, because columns are already modelled as numbers.
