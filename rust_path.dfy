/**
 * The parts of Rust's `std::path` (Unix flavour) that the client relies on:
 * `Path::join`, `Path::parent` (and so `ancestors`) and `Path::file_name`,
 * over path strings. The definitions follow the standard library's
 * `Components` iterator read from the back: a leading `/` is the root, a
 * leading `.` followed by `/` or the end is the current directory, empty
 * segments and other `.` segments are skipped, `..` is the parent directory.
 */
module RustPath {
  import opened Wrappers

  datatype Component = RootDir | CurDir | ParentDir | Normal(name: string)

  predicate HasRoot(p: string) {
    |p| > 0 && p[0] == '/'
  }

  predicate IncludeCurDir(p: string) {
    |p| > 0 && p[0] == '.' && (|p| == 1 || p[1] == '/')
  }

  /** Length of the root or leading current-directory component. */
  function LenBeforeBody(p: string): (n: nat)
    ensures n <= |p|
  {
    if HasRoot(p) || IncludeCurDir(p) then 1 else 0
  }

  /** A name that `join` appends as one final component. */
  predicate IsEntryName(name: string) {
    name != "" && name != "." && forall i :: 0 <= i < |name| ==> name[i] != '/'
  }

  /** Start of the last segment of `p[from..]`: just past its last `/`, or `from`. */
  function SegmentStart(p: string, from: nat): (k: nat)
    requires from <= |p|
    ensures from <= k <= |p|
    ensures k > from ==> p[k - 1] == '/'
    ensures forall j :: k <= j < |p| ==> p[j] != '/'
    decreases |p|
  {
    if |p| == from then from
    else if p[|p| - 1] == '/' then |p|
    else SegmentStart(p[..|p| - 1], from)
  }

  lemma SegmentStartAt(p: string, from: nat, m: nat)
    requires from <= m <= |p|
    requires m > from ==> p[m - 1] == '/'
    requires forall j :: m <= j < |p| ==> p[j] != '/'
    ensures SegmentStart(p, from) == m
  {
  }

  function ParseSingle(seg: string): Option<Component> {
    if seg == "" || seg == "." then None
    else if seg == ".." then Some(ParentDir)
    else Some(Normal(seg))
  }

  /**
   * `p.components().next_back()` together with what is left of `p` in front
   * of that component. A `Normal` component is always a proper entry name.
   */
  function NextBack(p: string): (r: (Option<Component>, string))
    ensures |r.1| <= |p| && r.1 == p[..|r.1|]
    ensures r.0.Some? ==> |r.1| < |p|
    ensures r.0.Some? && r.0.value.Normal? ==> IsEntryName(r.0.value.name) && r.0.value.name != ".."
    decreases |p|
  {
    var body := LenBeforeBody(p);
    if |p| > body then
      var k := SegmentStart(p, body);
      var rest := if k > body then p[..k - 1] else p[..k];
      var comp := ParseSingle(p[k..]);
      if comp.Some? then (comp, rest) else NextBack(rest)
    else if HasRoot(p) then (Some(RootDir), p[..|p| - 1])
    else if IncludeCurDir(p) then (Some(CurDir), p[..|p| - 1])
    else (None, p)
  }

  /** `Components::as_path` after reading from the back: trailing `/` and `.` segments dropped. */
  function TrimTrailing(p: string): (q: string)
    ensures |q| <= |p| && q == p[..|q|]
    decreases |p|
  {
    var body := LenBeforeBody(p);
    if |p| > body then
      var k := SegmentStart(p, body);
      if ParseSingle(p[k..]).Some? then p
      else TrimTrailing(if k > body then p[..k - 1] else p[..k])
    else p
  }

  /** `Path::parent`: `None` for the root and for the empty path. */
  function Parent(p: string): Option<string> {
    var (comp, rest) := NextBack(p);
    if comp.Some? && !comp.value.RootDir? then Some(TrimTrailing(rest)) else None
  }

  /** `Path::file_name`: the final component when it is a normal name. */
  function FileName(p: string): Option<string> {
    var (comp, _) := NextBack(p);
    if comp.Some? && comp.value.Normal? then Some(comp.value.name) else None
  }

  /** `Path::join` (`PathBuf::push`): an absolute `rel` replaces `base`; otherwise a `/` is put between them when `base` does not end in one. */
  function Join(base: string, rel: string): string {
    if HasRoot(rel) then rel
    else if |base| > 0 && base[|base| - 1] != '/' then base + "/" + rel
    else base + rel
  }

  /** What `NextBack` leaves in front of a name joined onto `base`. */
  function JoinRest(base: string): string {
    if |base| >= 2 && base[|base| - 1] == '/' then base[..|base| - 1] else base
  }

  /** `NextBack` of a path whose last segment, starting at `m`, is a component. */
  lemma NextBackAt(p: string, m: nat)
    requires LenBeforeBody(p) < |p| && LenBeforeBody(p) <= m <= |p|
    requires m > LenBeforeBody(p) ==> p[m - 1] == '/'
    requires forall j :: m <= j < |p| ==> p[j] != '/'
    requires ParseSingle(p[m..]).Some?
    ensures NextBack(p) == (ParseSingle(p[m..]), if m > LenBeforeBody(p) then p[..m - 1] else p[..m])
  {
    SegmentStartAt(p, LenBeforeBody(p), m);
  }

  /** Joining onto a non-empty `base` leaves its root or current-directory prefix as it was. */
  lemma JoinKeepsPrefix(base: string, name: string)
    requires base != "" && name != "" && name[0] != '/'
    ensures LenBeforeBody(Join(base, name)) == LenBeforeBody(base)
  {
    var p := Join(base, name);
    assert p[0] == base[0];
    if |base| == 1 && base[0] == '.' {
      assert p[1] == '/';
    } else if |base| > 1 {
      assert p[1] == base[1];
    }
  }

  /** The last component of `base` joined with `name` is `name` itself. */
  lemma NextBackOfJoin(base: string, name: string)
    requires name != "" && name != "."
    requires forall i :: 0 <= i < |name| ==> name[i] != '/'
    ensures NextBack(Join(base, name)) == (ParseSingle(name), JoinRest(base))
  {
    var p := Join(base, name);
    var k := |p| - |name|;
    assert p[k..] == name;
    if base == "" {
      assert p == name;
      NextBackAt(p, 0);
    } else {
      JoinKeepsPrefix(base, name);
      if base[|base| - 1] == '/' {
        assert p == base + name;
        if |base| == 1 {
          NextBackAt(p, 1);
        } else {
          assert p[..k - 1] == base[..|base| - 1];
          NextBackAt(p, k);
        }
      } else {
        assert p == base + "/" + name;
        assert p[..k - 1] == base;
        NextBackAt(p, k);
      }
    }
  }

  /** `file_name` of `base` joined with a plain entry name is that name. */
  lemma {:induction false} FileNameOfJoin(base: string, name: string)
    requires IsEntryName(name) && name != ".."
    ensures FileName(Join(base, name)) == Some(name)
  {
    NextBackOfJoin(base, name);
  }

  /** A path ending in `..` has no file name, so `get_filename` of it panics. */
  lemma {:induction false} FileNameOfDotDotJoin(base: string)
    ensures FileName(Join(base, "..")) == None
  {
    NextBackOfJoin(base, "..");
  }

  /** Entering a child and taking the parent gives back `base`, less any trailing `/` and `.` segments. */
  lemma {:induction false} ParentOfJoin(base: string, name: string)
    requires IsEntryName(name)
    ensures Parent(Join(base, name)) == Some(TrimTrailing(base))
  {
    NextBackOfJoin(base, name);
    if |base| >= 2 && base[|base| - 1] == '/' {
      var body := LenBeforeBody(base);
      SegmentStartAt(base, body, |base|);
      assert base[|base|..] == "";
    }
  }

  /** A parent is strictly shorter than the path, so repeated `..` navigation ends at a path without one. */
  lemma {:induction false} ParentIsShorterPrefix(p: string)
    ensures Parent(p).Some? ==> |Parent(p).value| < |p| && Parent(p).value == p[..|Parent(p).value|]
  {
    var (comp, rest) := NextBack(p);
    if comp.Some? {
      var q := TrimTrailing(rest);
      assert q == rest[..|q|];
      assert rest == p[..|rest|];
    }
  }

  /** The root and the empty path have neither a parent nor a file name. */
  lemma RootHasNoParentOrName()
    ensures Parent("/") == None && FileName("/") == None
    ensures Parent("") == None && FileName("") == None
  {
    assert NextBack("/") == (Some(RootDir), "");
  }
}
