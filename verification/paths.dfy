/**
 * Relative directory paths of a DataDir, as pathlib sees them: the text
 * of an identifier (str(path)), the parsing of a key back into
 * segments (path / key), and the ordering sorted() uses.
 */
module Paths {
  import opened Wrappers

  /** One directory name: non-empty, not '.' or '..', no separator. */
  type Segment = s: string | s != "" && s != "." && s != ".." && '/' !in s witness "d"

  /** A directory relative to the DataDir root; [] is the root itself. */
  type RelPath = seq<Segment>

  /** A filesystem location, as the list of its parts. */
  type FsPath = seq<string>

  /** item.name */
  function Name(q: RelPath): Segment
    requires q != []
  {
    q[|q| - 1]
  }

  /** item.parent (the parent of a top-level entry is the root []). */
  function Parent(q: RelPath): (p: RelPath)
    requires q != []
  {
    q[..|q| - 1]
  }

  function JoinSegments(q: RelPath): string
    requires q != []
    decreases |q|
  {
    if |q| == 1 then q[0] else q[0] + "/" + JoinSegments(q[1..])
  }

  /** str(item): the parts joined by '/', and '.' for the empty path. */
  function Identifier(q: RelPath): (id: string)
    ensures id == "." <==> q == []
  {
    if q == [] then "." else JoinSegments(q)
  }

  // ---------------------------------------------------------------
  // Parsing a key back into parts (what `path / key` does with a
  // relative key): split on '/', drop empty and '.' pieces.
  // ---------------------------------------------------------------

  function FirstSlash(s: string): (i: nat)
    requires '/' in s
    ensures i < |s| && s[i] == '/' && '/' !in s[..i]
    decreases |s|
  {
    if s[0] == '/' then 0
    else
      assert '/' in s[1..] by {
        var k :| 0 <= k < |s| && s[k] == '/';
        assert s[1..][k - 1] == '/';
      }
      var i := FirstSlash(s[1..]);
      assert s[..i + 1] == [s[0]] + s[1..][..i];
      i + 1
  }

  function Split(s: string): (pieces: seq<string>)
    ensures forall k :: 0 <= k < |pieces| ==> '/' !in pieces[k]
    decreases |s|
  {
    if '/' in s then
      var i := FirstSlash(s);
      [s[..i]] + Split(s[i + 1..])
    else [s]
  }

  function DropDots(pieces: seq<string>): (kept: seq<string>)
    ensures forall k :: 0 <= k < |kept| ==> kept[k] in pieces && kept[k] != "" && kept[k] != "."
  {
    if pieces == [] then []
    else if pieces[0] == "" || pieces[0] == "." then DropDots(pieces[1..])
    else [pieces[0]] + DropDots(pieces[1..])
  }

  /** The parts pathlib makes of a relative key. */
  function Parts(key: string): (parts: seq<string>)
    ensures forall k :: 0 <= k < |parts| ==> parts[k] != "" && parts[k] != "." && '/' !in parts[k]
  {
    DropDots(Split(key))
  }

  /** Splitting a piece without '/', a '/', and the rest. */
  lemma SplitAt(a: string, b: string)
    requires '/' !in a
    ensures Split(a + "/" + b) == [a] + Split(b)
  {
    var s := a + "/" + b;
    assert s[|a|] == '/';
    assert FirstSlash(s) == |a|;
    assert s[..|a|] == a;
    assert s[|a| + 1..] == b;
  }

  lemma {:induction false} SplitJoin(q: RelPath)
    requires q != []
    ensures Split(JoinSegments(q)) == q
    decreases |q|
  {
    if |q| == 1 {
      assert '/' !in q[0];
    } else {
      SplitAt(q[0], JoinSegments(q[1..]));
      SplitJoin(q[1..]);
      assert q == [q[0]] + q[1..];
    }
  }

  lemma {:induction false} DropDotsKeepsSegments(q: RelPath)
    ensures DropDots(q) == q
  {
    if q != [] {
      DropDotsKeepsSegments(q[1..]);
      assert q == [q[0]] + q[1..];
    }
  }

  /** Parsing the identifier of a path gives the path back. */
  lemma {:induction false} PartsOfIdentifier(q: RelPath)
    ensures Parts(Identifier(q)) == q
  {
    if q == [] {
      assert Split(".") == ["."];
      assert DropDots(["."]) == DropDots([]);
    } else {
      SplitJoin(q);
      DropDotsKeepsSegments(q);
    }
  }

  /** Distinct paths have distinct identifiers (and only the root prints as '.'). */
  lemma IdentifierInjective(p: RelPath, q: RelPath)
    ensures Identifier(p) == Identifier(q) <==> p == q
  {
    PartsOfIdentifier(p);
    PartsOfIdentifier(q);
  }

  // ---------------------------------------------------------------
  // Ordering: Python compares paths by their lists of parts, lists
  // element by element, and strings code point by code point.
  // ---------------------------------------------------------------

  predicate CharsLess(a: string, b: string)
    decreases |a|
  {
    if a == [] then b != []
    else if b == [] then false
    else if a[0] != b[0] then a[0] < b[0]
    else CharsLess(a[1..], b[1..])
  }

  lemma {:induction false} CharsLessIrreflexive(a: string)
    ensures !CharsLess(a, a)
    decreases |a|
  {
    if a != [] {
      CharsLessIrreflexive(a[1..]);
    }
  }

  lemma {:induction false} CharsLessTransitive(a: string, b: string, c: string)
    requires CharsLess(a, b) && CharsLess(b, c)
    ensures CharsLess(a, c)
    decreases |a|
  {
    if a != [] && a[0] == b[0] && b[0] == c[0] {
      CharsLessTransitive(a[1..], b[1..], c[1..]);
    }
  }

  lemma {:induction false} CharsLessTotal(a: string, b: string)
    requires a != b
    ensures CharsLess(a, b) || CharsLess(b, a)
    decreases |a|
  {
    if a != [] && b != [] && a[0] == b[0] {
      assert a == [a[0]] + a[1..] && b == [b[0]] + b[1..];
      CharsLessTotal(a[1..], b[1..]);
    }
  }

  /** Path(p) < Path(q) */
  predicate PathLess(p: RelPath, q: RelPath)
    decreases |p|
  {
    if p == [] then q != []
    else if q == [] then false
    else if p[0] != q[0] then CharsLess(p[0], q[0])
    else PathLess(p[1..], q[1..])
  }

  lemma {:induction false} PathLessIrreflexive(p: RelPath)
    ensures !PathLess(p, p)
    decreases |p|
  {
    if p != [] {
      PathLessIrreflexive(p[1..]);
    }
  }

  lemma {:induction false} PathLessTransitive(p: RelPath, q: RelPath, r: RelPath)
    requires PathLess(p, q) && PathLess(q, r)
    ensures PathLess(p, r)
    decreases |p|
  {
    if p != [] {
      if p[0] == q[0] && q[0] == r[0] {
        PathLessTransitive(p[1..], q[1..], r[1..]);
      } else if p[0] != q[0] && q[0] != r[0] {
        CharsLessTransitive(p[0], q[0], r[0]);
        if p[0] == r[0] {
          CharsLessIrreflexive(p[0]);
        }
      }
    }
  }

  lemma {:induction false} PathLessTotal(p: RelPath, q: RelPath)
    requires p != q
    ensures PathLess(p, q) || PathLess(q, p)
    decreases |p|
  {
    if p != [] && q != [] {
      if p[0] == q[0] {
        assert p == [p[0]] + p[1..] && q == [q[0]] + q[1..];
        PathLessTotal(p[1..], q[1..]);
      } else {
        CharsLessTotal(p[0], q[0]);
      }
    }
  }

  lemma PathLessAsymmetric(p: RelPath, q: RelPath)
    requires PathLess(p, q)
    ensures !PathLess(q, p)
  {
    if PathLess(q, p) {
      PathLessTransitive(p, q, p);
      PathLessIrreflexive(p);
    }
  }

  /** `not q < p` and `not r < q` give `not r < p`. */
  lemma NotLessTransitive(p: RelPath, q: RelPath, r: RelPath)
    requires !PathLess(q, p) && !PathLess(r, q)
    ensures !PathLess(r, p)
  {
    if p != q && q != r {
      PathLessTotal(p, q);
      PathLessTotal(q, r);
      PathLessTransitive(p, q, r);
      PathLessAsymmetric(p, r);
    }
  }

  /** A directory sorts before everything inside it. */
  lemma {:induction false} ParentPrecedes(q: RelPath)
    requires q != []
    ensures PathLess(Parent(q), q)
    decreases |q|
  {
    if |q| > 1 {
      assert Parent(q)[1..] == Parent(q[1..]);
      ParentPrecedes(q[1..]);
    }
  }

  // ---------------------------------------------------------------
  // sorted(): any sort yields the same list on distinct paths, since
  // the order is total; insertion sort is the one modelled here.
  // ---------------------------------------------------------------

  predicate Ascending(s: seq<RelPath>)
  {
    forall i, j :: 0 <= i < j < |s| ==> !PathLess(s[j], s[i])
  }

  predicate Distinct<T(==)>(s: seq<T>)
  {
    forall i, j :: 0 <= i < j < |s| ==> s[i] != s[j]
  }

  function Insert(x: RelPath, s: seq<RelPath>): (r: seq<RelPath>)
    requires Ascending(s)
    ensures Ascending(r)
    ensures multiset(r) == multiset(s) + multiset{x}
  {
    if s == [] then [x]
    else if !PathLess(s[0], x) then
      assert forall j :: 0 <= j < |s| ==> !PathLess(s[j], x) by {
        forall j | 0 <= j < |s| ensures !PathLess(s[j], x) {
          if j > 0 {
            NotLessTransitive(x, s[0], s[j]);
          }
        }
      }
      [x] + s
    else
      var rest := Insert(x, s[1..]);
      assert s == [s[0]] + s[1..];
      assert forall k :: 0 <= k < |rest| ==> !PathLess(rest[k], s[0]) by {
        forall k | 0 <= k < |rest| ensures !PathLess(rest[k], s[0]) {
          assert rest[k] in multiset(rest);
          if rest[k] == x {
            PathLessAsymmetric(s[0], x);
          } else {
            assert rest[k] in multiset(s[1..]);
            var j :| 0 <= j < |s[1..]| && s[1..][j] == rest[k];
            assert s[j + 1] == rest[k];
          }
        }
      }
      [s[0]] + rest
  }

  /** sorted(s) */
  function Sort(s: seq<RelPath>): (r: seq<RelPath>)
    ensures Ascending(r)
    ensures multiset(r) == multiset(s)
  {
    if s == [] then []
    else
      assert s == [s[0]] + s[1..];
      Insert(s[0], Sort(s[1..]))
  }

  /** In a duplicate-free list, no element occurs more than once. */
  lemma {:induction false} AtMostOnce<T>(s: seq<T>, x: T)
    requires Distinct(s)
    ensures multiset(s)[x] <= 1
  {
    if s != [] {
      assert s == [s[0]] + s[1..];
      AtMostOnce(s[1..], x);
      if x == s[0] {
        assert x !in s[1..];
      }
    }
  }

  /** A list is duplicate-free exactly when no element occurs twice in its multiset. */
  lemma DistinctCount<T>(s: seq<T>)
    ensures Distinct(s) <==> forall x :: multiset(s)[x] <= 1
  {
    if Distinct(s) {
      forall x ensures multiset(s)[x] <= 1 {
        AtMostOnce(s, x);
      }
    } else {
      var i, j :| 0 <= i < j < |s| && s[i] == s[j];
      assert s == s[..i] + [s[i]] + s[i + 1..j] + [s[j]] + s[j + 1..];
      assert multiset(s)[s[i]] >= 2;
    }
  }

  /** Reordering a duplicate-free list keeps it duplicate-free. */
  lemma PermutationKeepsDistinct<T>(s: seq<T>, r: seq<T>)
    requires Distinct(s) && multiset(r) == multiset(s)
    ensures Distinct(r)
  {
    DistinctCount(s);
    DistinctCount(r);
  }

  /** In a sorted list holding the root, the root comes first. */
  lemma RootFirst(ls: seq<RelPath>)
    requires Ascending(ls) && [] in ls
    ensures ls[0] == []
  {
    var j :| 0 <= j < |ls| && ls[j] == [];
  }

  /**
   * In a sorted list, a path's parent, when listed at all, is listed
   * earlier: this is why every parent node exists before its children.
   */
  lemma ParentListedEarlier(ls: seq<RelPath>, k: nat, j: nat)
    requires Ascending(ls) && k < |ls| && j < |ls|
    requires ls[k] != [] && ls[j] == Parent(ls[k])
    ensures j < k
  {
    ParentPrecedes(ls[k]);
  }

  /** In a sorted list, whatever sorts before ls[k] is listed before it. */
  lemma SmallerListedEarlier(ls: seq<RelPath>, k: nat, j: nat)
    requires Ascending(ls) && k < |ls| && j < |ls|
    requires PathLess(ls[j], ls[k])
    ensures j < k
  {
    if j == k {
      PathLessIrreflexive(ls[k]);
    }
  }
}
