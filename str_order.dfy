/**
 * The order of Rust's `Ord for String`: lexicographic over UTF-8 bytes, which
 * is the lexicographic order over code points used here. `Sort` is the result
 * of `Vec<String>::sort`.
 */
module StrOrder {

  datatype Ordering = Less | Equal | Greater {
    function Reverse(): Ordering {
      match this
      case Less => Greater
      case Equal => Equal
      case Greater => Less
    }
  }

  function Cmp(a: string, b: string): Ordering
    decreases |a|
  {
    if |a| == 0 && |b| == 0 then Equal
    else if |a| == 0 then Less
    else if |b| == 0 then Greater
    else if a[0] < b[0] then Less
    else if b[0] < a[0] then Greater
    else Cmp(a[1..], b[1..])
  }

  predicate Le(a: string, b: string) {
    Cmp(a, b) != Greater
  }

  /** Two strings compare `Equal` exactly when they are the same string. */
  lemma {:induction false} CmpEqualIff(a: string, b: string)
    ensures Cmp(a, b) == Equal <==> a == b
  {
    if |a| > 0 && |b| > 0 && a[0] == b[0] {
      CmpEqualIff(a[1..], b[1..]);
      assert a == [a[0]] + a[1..];
      assert b == [b[0]] + b[1..];
    }
  }

  /** Swapping the operands reverses the ordering. */
  lemma {:induction false} CmpReverse(a: string, b: string)
    ensures Cmp(b, a) == Cmp(a, b).Reverse()
  {
    if |a| > 0 && |b| > 0 && a[0] == b[0] {
      CmpReverse(a[1..], b[1..]);
    }
  }

  lemma {:induction false} LeTransitive(a: string, b: string, c: string)
    requires Le(a, b) && Le(b, c)
    ensures Le(a, c)
  {
    if |a| > 0 && |b| > 0 && |c| > 0 && a[0] == b[0] && b[0] == c[0] {
      LeTransitive(a[1..], b[1..], c[1..]);
    }
  }

  lemma LeTotal(a: string, b: string)
    ensures Le(a, b) || Le(b, a)
  {
    CmpReverse(a, b);
  }

  predicate Sorted(s: seq<string>) {
    forall i, j :: 0 <= i < j < |s| ==> Le(s[i], s[j])
  }

  function Insert(x: string, s: seq<string>): (r: seq<string>)
    ensures |r| == |s| + 1
  {
    if s == [] then [x]
    else if Le(x, s[0]) then [x] + s
    else [s[0]] + Insert(x, s[1..])
  }

  function Sort(s: seq<string>): (r: seq<string>)
    ensures |r| == |s|
  {
    if s == [] then [] else Insert(s[0], Sort(s[1..]))
  }

  /** A sorted list stays sorted under a new head that is below all of it. */
  lemma ConsSorted(h: string, t: seq<string>)
    requires Sorted(t)
    requires forall k :: 0 <= k < |t| ==> Le(h, t[k])
    ensures Sorted([h] + t)
  {
    var r := [h] + t;
    forall i, j | 0 <= i < j < |r| ensures Le(r[i], r[j]) {
      assert r[j] == t[j - 1];
      if i > 0 {
        assert r[i] == t[i - 1];
      }
    }
  }

  /** The head of a sorted list is below every element of its tail. */
  lemma HeadBelowTail(s: seq<string>)
    requires Sorted(s) && s != []
    ensures forall k :: 0 <= k < |s[1..]| ==> Le(s[0], s[1..][k])
  {
    forall k | 0 <= k < |s[1..]| ensures Le(s[0], s[1..][k]) {
      assert s[1..][k] == s[k + 1];
    }
  }

  lemma {:induction false} InsertSorted(x: string, s: seq<string>)
    requires Sorted(s)
    ensures Sorted(Insert(x, s))
    ensures multiset(Insert(x, s)) == multiset(s) + multiset{x}
  {
    if s == [] {
    } else if Le(x, s[0]) {
      forall k | 0 <= k < |s| ensures Le(x, s[k]) {
        if k > 0 { LeTransitive(x, s[0], s[k]); }
      }
      ConsSorted(x, s);
    } else {
      LeTotal(x, s[0]);
      assert s == [s[0]] + s[1..];
      InsertSorted(x, s[1..]);
      var t := Insert(x, s[1..]);
      HeadBelowTail(s);
      forall k | 0 <= k < |t| ensures Le(s[0], t[k]) {
        assert t[k] in multiset(s[1..]) + multiset{x};
        if t[k] != x {
          assert t[k] in s[1..];
          var m :| 0 <= m < |s[1..]| && s[1..][m] == t[k];
        }
      }
      ConsSorted(s[0], t);
    }
  }

  /** `Sort` yields an ascending permutation of its input, as `Vec::sort` does. */
  lemma {:induction false} SortSpec(s: seq<string>)
    ensures Sorted(Sort(s))
    ensures multiset(Sort(s)) == multiset(s)
  {
    if s != [] {
      SortSpec(s[1..]);
      InsertSorted(s[0], Sort(s[1..]));
      assert s == [s[0]] + s[1..];
    }
  }
}
