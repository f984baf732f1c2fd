/**
 * Opening a DataDir: the root descriptor check, the rebuild of the
 * node store from the descriptors found under the root, and the
 * DataDir object that forwards lookups and assignments to its File.
 * Line numbers in the comments of this module and the next refer to
 * data_dir/data_dir.py.
 */
module DataDirRoot {
  import opened Wrappers
  import opened Errors
  import Json
  import opened Paths
  import opened TreeStore
  import opened Elements

  /**
   * The files under the root that the open reads: the parsed ddir.json
   * and attributes.json of each directory that has them, keyed by the
   * directory relative to the root.
   */
  datatype Disk = Disk(ddir: map<RelPath, Json.Value>, attributes: map<RelPath, Json.Value>)

  /** json.load(ddir.json)['ddir']['type'] */
  function DescriptorType(d: Json.Value): (r: Result<Json.Value, Error>)
    ensures r.Ok? <==> d.Object? && "ddir" in d.fields && d.fields["ddir"].Object? && "type" in d.fields["ddir"].fields
    ensures r.Ok? ==> r.value == d.fields["ddir"].fields["type"]
    ensures d.Object? && "ddir" !in d.fields ==> r == Err(KeyMissing("ddir"))
  {
    if !d.Object? then Err(NotSubscriptable)
    else if "ddir" !in d.fields then Err(KeyMissing("ddir"))
    else
      var inner := d.fields["ddir"];
      if !inner.Object? then Err(NotSubscriptable)
      else if "type" !in inner.fields then Err(KeyMissing("type"))
      else Ok(inner.fields["type"])
  }

  /**
   * The element kind the scan builds for a declared type: the kind whose
   * own type tag was declared, or none for any other value (including
   * 'file').
   */
  function ElementKindOf(dtype: Json.Value): (k: Option<Kind>)
    ensures k.Some? ==> dtype == Json.String(TypeTag(k.value))
    ensures k.None? ==> forall kind: Kind :: dtype != Json.String(TypeTag(kind))
  {
    if dtype == Json.String(GROUP) then Some(GroupKind)
    else if dtype == Json.String(DATASET) then Some(DataSetKind)
    else if dtype == Json.String(RAW) then Some(RawKind)
    else None
  }

  /** The root descriptor exists and declares type 'file'. */
  predicate IsRoot(disk: Disk)
  {
    && [] in disk.ddir
    && DescriptorType(disk.ddir[[]]).Ok?
    && DescriptorType(disk.ddir[[]]).value == Json.String(FILE)
  }

  /**
   * Lines 34-39: the exception the root check raises, if any: no root
   * descriptor, an unreadable one, or one declaring a type other than
   * 'file'.
   */
  function RootError(disk: Disk): (e: Option<Error>)
    ensures e.None? <==> IsRoot(disk)
    ensures [] !in disk.ddir ==> e == Some(NotADataDir)
    ensures [] in disk.ddir && DescriptorType(disk.ddir[[]]).Err? ==> e == Some(DescriptorType(disk.ddir[[]]).error)
    ensures [] in disk.ddir && DescriptorType(disk.ddir[[]]).Ok? && !IsRoot(disk) ==> e == Some(NotTheRoot)
  {
    if [] !in disk.ddir then Some(NotADataDir)
    else match DescriptorType(disk.ddir[[]])
      case Err(error) => Some(error)
      case Ok(dtype) => if dtype != Json.String(FILE) then Some(NotTheRoot) else None
  }

  /** `mode in list('ar')`: the modes that rebuild the tree on open. */
  predicate ScansOnOpen(mode: string)
  {
    mode == "a" || mode == "r"
  }

  /**
   * What stops the scan at a listed directory q, in the order
   * data_dir.py meets it: an unreadable descriptor, a missing attributes
   * file for an attribute-bearing kind, a parent without a node.
   */
  function ItemError(disk: Disk, q: RelPath): Option<Error>
    requires q in disk.ddir && q != []
  {
    match DescriptorType(disk.ddir[q])
    case Err(e) => Some(e)
    case Ok(dtype) =>
      var kind := ElementKindOf(dtype);
      if kind.Some? && kind.value.BearsAttributes() && q !in disk.attributes then
        Some(MissingFile(q + [ATTRIBUTES_FILE]))
      else if Parent(q) != [] && Parent(q) !in disk.ddir then
        Some(NodeIdAbsent(Identifier(Parent(q))))
      else None
  }

  /** Every listed directory can be turned into a node. */
  ghost predicate ScanSucceeds(disk: Disk)
  {
    && [] in disk.attributes
    && forall q :: q in disk.ddir && q != [] ==> ItemError(disk, q) == None
  }

  /** q fails, and no listed directory that sorts before it does. */
  ghost predicate LeastFailing(disk: Disk, q: RelPath)
  {
    && q in disk.ddir && q != [] && ItemError(disk, q).Some?
    && forall q' :: q' in disk.ddir && q' != [] && PathLess(q', q) ==> ItemError(disk, q') == None
  }

  /** e is the exception the scan raises first. */
  ghost predicate FirstFailure(disk: Disk, e: Error)
  {
    if [] !in disk.attributes then e == MissingFile([ATTRIBUTES_FILE])
    else exists q :: LeastFailing(disk, q) && ItemError(disk, q) == Some(e)
  }

  /** The failure the scan reports is determined by the disk alone. */
  lemma FirstFailureDetermined(disk: Disk, e1: Error, e2: Error)
    requires FirstFailure(disk, e1) && FirstFailure(disk, e2)
    ensures e1 == e2
  {
    if [] in disk.attributes {
      var q1 :| LeastFailing(disk, q1) && ItemError(disk, q1) == Some(e1);
      var q2 :| LeastFailing(disk, q2) && ItemError(disk, q2) == Some(e2);
      if q1 != q2 {
        PathLessTotal(q1, q2);
      }
    }
  }

  /** A scan that succeeds found a descriptor in the parent directory of every directory it lists. */
  lemma ScanSucceedsNeedsParents(disk: Disk, q: RelPath)
    requires ScanSucceeds(disk) && q in disk.ddir && q != []
    ensures Parent(q) == [] || Parent(q) in disk.ddir
  {
    assert ItemError(disk, q) == None;
  }

  /** pathlib's `hit.relative_to(base)`: the parts of hit after base; ValueError when hit is not below base. */
  function RelativeTo(hit: FsPath, base: FsPath): (r: Result<FsPath, Error>)
    ensures r.Ok? <==> base <= hit
    ensures r.Ok? ==> base + r.value == hit
    ensures r.Err? ==> r.error == NotRelative(hit, base)
  {
    if base <= hit then Ok(hit[|base|..]) else Err(NotRelative(hit, base))
  }

  /** `.parent` of a relative path: the last part dropped; the empty path is its own parent. */
  function ParentOf(rel: FsPath): (parent: FsPath)
    ensures rel != [] ==> parent + [rel[|rel| - 1]] == rel
    ensures rel == [] ==> parent == []
  {
    if rel == [] then [] else rel[..|rel| - 1]
  }

  /**
   * Line 45 as written: the descriptor root/q/ddir.json that the glob
   * finds is taken relative to the module-level name `p`, which only the
   * script block (line 153) defines.
   */
  function ListedDirAsWritten(scriptP: Option<FsPath>, root: FsPath, q: RelPath): (r: Result<FsPath, Error>)
    ensures scriptP.None? ==> r == Err(UndefinedName("p"))
    ensures scriptP == Some(root) ==> r == Ok(q)
  {
    if scriptP.None? then Err(UndefinedName("p"))
    else
      var hit := root + q + [DDIR_FILE];
      assert hit[|root|..] == q + [DDIR_FILE] && (q + [DDIR_FILE])[..|q|] == q;
      match RelativeTo(hit, scriptP.value)
      case Err(e) => Err(e)
      case Ok(rel) => Ok(ParentOf(rel))
  }

  /**
   * Line 45 with the root as the base, as the scan is meant to list:
   * every descriptor's directory comes back as itself.
   */
  function ListedDir(root: FsPath, q: RelPath): (r: FsPath)
    ensures r == q
  {
    var hit := root + q + [DDIR_FILE];
    assert hit[|root|..] == q + [DDIR_FILE] && (q + [DDIR_FILE])[..|q|] == q;
    match RelativeTo(hit, root)
    case Err(_) => []
    case Ok(rel) => ParentOf(rel)
  }

  /** The element built for a declared kind, in directory dir, with the attributes read there. */
  ghost predicate ElementMatches(e: Option<Element>, kind: Option<Kind>, dir: FsPath, attrs: Option<Json.Value>)
    reads ElementObjects(e)
  {
    match kind
    case None => e.None?
    case Some(GroupKind) =>
      && e.Some? && e.value.GroupEl? && attrs.Some?
      && var g := e.value.group;
         g.path == dir && g.typeTag == GROUP && g.attrs == attrs.value && g.tree == EmptyTree()
    case Some(DataSetKind) =>
      && e.Some? && e.value.DataSetEl? && attrs.Some?
      && var d := e.value.dataSet;
         d.typeTag == DATASET && d.attrs == attrs.value && d.df == EmptyTable
    case Some(RawKind) =>
      e.Some? && e.value.RawEl? && e.value.raw.typeTag == RAW
  }

  /** The node the scan builds for directory q under root. */
  ghost predicate NodeMatches(n: Node<Option<Element>>, q: RelPath, root: FsPath, disk: Disk)
    reads ElementObjects(n.data)
  {
    && q in disk.ddir && q != []
    && n.tag == Name(q) && n.identifier == Identifier(q) && n.parent == Some(Identifier(Parent(q)))
    && DescriptorType(disk.ddir[q]).Ok?
    && ElementMatches(n.data, ElementKindOf(DescriptorType(disk.ddir[q]).value), root + q, Get(disk.attributes, q))
  }

  function TreeObjects(t: Tree<Option<Element>>): set<object>
  {
    set id | id in t.nodes && t.nodes[id].data.Some? :: t.nodes[id].data.value.Obj()
  }

  /** Two different nodes never share an element object. */
  ghost predicate SeparateElements(t: Tree<Option<Element>>)
  {
    forall a, b :: a in t.nodes && b in t.nodes && a != b ==> ElementObjects(t.nodes[a].data) !! ElementObjects(t.nodes[b].data)
  }

  /** A node whose element is not yet in the store keeps the elements separate. */
  lemma SeparateAfterAdd(t: Tree<Option<Element>>, t': Tree<Option<Element>>, id: string)
    requires SeparateElements(t) && id !in t.nodes
    requires t'.nodes.Keys == t.nodes.Keys + {id}
    requires forall k :: k in t.nodes ==> t'.nodes[k] == t.nodes[k]
    requires ElementObjects(t'.nodes[id].data) !! TreeObjects(t)
    ensures SeparateElements(t')
  {
    forall a, b | a in t'.nodes && b in t'.nodes && a != b
      ensures ElementObjects(t'.nodes[a].data) !! ElementObjects(t'.nodes[b].data)
    {
      if a == id {
        assert t.nodes[b].data.Some? ==> t.nodes[b].data.value.Obj() in TreeObjects(t);
      } else if b == id {
        assert t.nodes[a].data.Some? ==> t.nodes[a].data.value.Obj() in TreeObjects(t);
      }
    }
  }

  function RootNode(file: Group): Node<Option<Element>>
  {
    Node(".", ".", None, Some(GroupEl(file)))
  }

  /**
   * The File's tree after a successful scan: the root node, and one node
   * for every listed directory, filed under its identifier.
   */
  ghost predicate Rebuilt(file: Group, disk: Disk)
    reads file, TreeObjects(file.tree)
  {
    && file.tree.root == Some(".")
    && "." in file.tree.nodes && file.tree.nodes["."] == RootNode(file)
    && file.tree.nodes.Keys == {"."} + (set q | q in disk.ddir && q != [] :: Identifier(q))
    && forall q :: q in disk.ddir && q != [] ==> NodeMatches(file.tree.nodes[Identifier(q)], q, file.path, disk)
  }
}

/**
 * The scan of data_dir/data_dir.py, lines 45-63, as a loop over the
 * sorted listing; DataDir(path, mode) and its item access; and the
 * script block at the end of that file.
 */
module DataDirOpen {
  import opened Wrappers
  import opened Errors
  import Json
  import opened Paths
  import opened TreeStore
  import opened Elements
  import opened DataDirRoot

  /**
   * Lines 45-63: list the descriptor directories in sorted order, give
   * the File the root's attributes, and create one node per directory,
   * parents before children.
   */
  method Scan(file: Group, disk: Disk, walk: seq<RelPath>) returns (r: Outcome<Error>)
    requires file.typeTag == FILE && file.tree == Tree(Some("."), map["." := RootNode(file)])
    requires [] in disk.ddir && Distinct(walk) && forall q :: q in walk <==> q in disk.ddir
    modifies file
    ensures r.Pass? <==> ScanSucceeds(disk)
    ensures r.Fail? ==> FirstFailure(disk, r.error)
    ensures r.Pass? ==> file.attrs == disk.attributes[[]] && Rebuilt(file, disk) && WellFormed(file.tree)
    ensures r.Pass? ==> SeparateElements(file.tree)
    ensures r.Pass? ==> forall k :: k in file.tree.nodes && k != "." && file.tree.nodes[k].data.Some? ==> fresh(file.tree.nodes[k].data.value.Obj())
  {
    var ls := Sort(walk);
    SortedListing(disk, walk);
    assert ls[0 := []] == ls;
    ls := ls[0 := []];
    if [] !in disk.attributes {
      return Fail(MissingFile([ATTRIBUTES_FILE]));
    }
    file.SetAttrs(disk.attributes[[]]);
    r := ScanListing(file, disk, ls);
  }

  /**
   * Lines 47 and 50-63: walk ls[1..], creating each directory's node
   * under its parent's identifier, until one fails.
   */
  method ScanListing(file: Group, disk: Disk, ls: seq<RelPath>) returns (r: Outcome<Error>)
    requires Listing(disk, ls) && ScannedUpTo(file, disk, ls, 1) && [] in disk.attributes
    requires file.tree.nodes.Keys == {"."}
    modifies file`tree
    ensures r.Pass? <==> ScanSucceeds(disk)
    ensures r.Fail? ==> FirstFailure(disk, r.error)
    ensures r.Pass? ==> Rebuilt(file, disk) && WellFormed(file.tree)
    ensures r.Pass? ==> SeparateElements(file.tree)
    ensures r.Pass? ==> forall k :: k in file.tree.nodes && k != "." && file.tree.nodes[k].data.Some? ==> fresh(file.tree.nodes[k].data.value.Obj())
  {
    var parent: Option<RelPath> := None;
    var i := 1;
    while i < |ls|
      invariant ScannedUpTo(file, disk, ls, i)
      invariant SeparateElements(file.tree)
      invariant forall k :: k in file.tree.nodes && k != "." && file.tree.nodes[k].data.Some? ==> fresh(file.tree.nodes[k].data.value.Obj())
    {
      var item := ls[i];
      if parent != Some(Parent(item)) {
        parent := Some(Parent(item));
      }
      StepFacts(file, disk, ls, i);
      ghost var before := file.tree;
      r := ScanStep(file, disk, ls, i, parent.value);
      if r.Fail? {
        return;
      }
      forall k | k in file.tree.nodes && k != "." && file.tree.nodes[k].data.Some?
        ensures fresh(file.tree.nodes[k].data.value.Obj())
      {
        if k != Identifier(item) {
          assert file.tree.nodes[k] == before.nodes[k];
        }
      }
      i := i + 1;
    }
    ScanComplete(file, disk, ls);
    r := Pass;
  }

  /**
   * The listing the scan walks: every descriptor directory once, the
   * root first, in ascending path order.
   */
  ghost predicate Listing(disk: Disk, ls: seq<RelPath>)
  {
    && Ascending(ls) && Distinct(ls) && |ls| > 0 && ls[0] == []
    && (forall q :: q in ls <==> q in disk.ddir)
    && (forall j :: 0 <= j < |ls| ==> ls[j] in disk.ddir)
    && (forall j :: 1 <= j < |ls| ==> ls[j] != [])
  }

  /**
   * The state after the steps for ls[1..i]: the root node, and for each
   * of those directories a matching node under its identifier, built
   * from objects other than the File itself.
   */
  ghost predicate ScannedUpTo(file: Group, disk: Disk, ls: seq<RelPath>, i: nat)
    reads file, TreeObjects(file.tree)
  {
    && 1 <= i <= |ls|
    && WellFormed(file.tree) && file.tree.root == Some(".")
    && "." in file.tree.nodes && file.tree.nodes["."] == RootNode(file)
    && file.tree.nodes.Keys == {"."} + Identifiers(ls[1..i])
    && forall j {:trigger NodeBuilt(file, disk, ls[j])} :: 1 <= j < i ==> NodeBuilt(file, disk, ls[j])
  }

  /**
   * Directory q passed its step: it raised nothing, and the store holds
   * its matching node, built from objects other than the File itself.
   */
  ghost predicate NodeBuilt(file: Group, disk: Disk, q: RelPath)
    reads file, if Identifier(q) in file.tree.nodes then ElementObjects(file.tree.nodes[Identifier(q)].data) else {}
  {
    && q in disk.ddir && q != [] && ItemError(disk, q) == None
    && Identifier(q) in file.tree.nodes
    && NodeMatches(file.tree.nodes[Identifier(q)], q, file.path, disk)
    && file !in ElementObjects(file.tree.nodes[Identifier(q)].data)
  }

  /**
   * Lines 51-63, the scan's step for ls[i]: either its node joins the
   * store, or the step raises the error ls[i] meets.
   */
  method ScanStep(file: Group, disk: Disk, ls: seq<RelPath>, i: nat, parent: RelPath) returns (r: Outcome<Error>)
    requires 1 <= i < |ls| && ls[i] in disk.ddir && ls[i] != [] && parent == Parent(ls[i])
    requires ScannedUpTo(file, disk, ls, i)
    requires Identifier(ls[i]) !in file.tree.nodes
    requires Identifiers(ls[1..i + 1]) == Identifiers(ls[1..i]) + {Identifier(ls[i])}
    requires Identifier(parent) in file.tree.nodes <==> parent == [] || parent in disk.ddir
    requires SeparateElements(file.tree)
    modifies file`tree
    ensures r.Pass? ==> ScannedUpTo(file, disk, ls, i + 1) && SeparateElements(file.tree)
    ensures r.Pass? ==> file.tree.nodes.Keys == old(file.tree.nodes.Keys) + {Identifier(ls[i])}
    ensures r.Pass? ==> forall k :: k in old(file.tree.nodes) ==> file.tree.nodes[k] == old(file.tree.nodes[k])
    ensures r.Pass? ==> var data := file.tree.nodes[Identifier(ls[i])].data;
                        data.Some? ==> fresh(data.value.Obj())
    ensures r.Fail? ==> ItemError(disk, ls[i]) == Some(r.error)
  {
    r := AddNode(file, disk, ls[i], parent);
    if r.Fail? {
      return;
    }
    SeparateAfterAdd(old(file.tree), file.tree, Identifier(ls[i]));
    forall j | 1 <= j < i ensures NodeBuilt(file, disk, ls[j]) {
      assert old(NodeBuilt(file, disk, ls[j]));
    }
    ScannedNext(file, disk, ls, i);
  }

  /** The steps for ls[1..i] and the step for ls[i] together make the steps for ls[1..i + 1]. */
  lemma ScannedNext(file: Group, disk: Disk, ls: seq<RelPath>, i: nat)
    requires 1 <= i < |ls|
    requires WellFormed(file.tree) && file.tree.root == Some(".")
    requires "." in file.tree.nodes && file.tree.nodes["."] == RootNode(file)
    requires file.tree.nodes.Keys == {"."} + Identifiers(ls[1..i + 1])
    requires forall j :: 1 <= j < i ==> NodeBuilt(file, disk, ls[j])
    requires NodeBuilt(file, disk, ls[i])
    ensures ScannedUpTo(file, disk, ls, i + 1)
  {
  }

  /**
   * Step i may run once the earlier steps succeeded: what the sorted
   * order then guarantees about ls[i], and that an error there is the
   * first one the scan meets.
   */
  lemma StepFacts(file: Group, disk: Disk, ls: seq<RelPath>, i: nat)
    requires Listing(disk, ls) && 1 <= i < |ls| && ScannedUpTo(file, disk, ls, i) && [] in disk.attributes
    ensures Identifier(ls[i]) !in {"."} + Identifiers(ls[1..i])
    ensures Identifiers(ls[1..i + 1]) == Identifiers(ls[1..i]) + {Identifier(ls[i])}
    ensures Identifier(Parent(ls[i])) in {"."} + Identifiers(ls[1..i]) <==> Parent(ls[i]) == [] || Parent(ls[i]) in disk.ddir
    ensures ItemError(disk, ls[i]).Some? ==> !ScanSucceeds(disk) && FirstFailure(disk, ItemError(disk, ls[i]).value)
  {
    forall j | 1 <= j < i ensures ItemError(disk, ls[j]) == None {
      assert NodeBuilt(file, disk, ls[j]);
    }
    StepOrder(disk, ls, i);
    FailureAt(disk, ls, i);
  }

  /**
   * In the sorted listing, ls[i] has an identifier no earlier directory
   * has, and its parent has a node exactly when the parent is the root
   * or a listed directory.
   */
  lemma StepOrder(disk: Disk, ls: seq<RelPath>, i: nat)
    requires Listing(disk, ls) && 1 <= i < |ls|
    ensures Identifier(ls[i]) !in {"."} + Identifiers(ls[1..i])
    ensures Identifiers(ls[1..i + 1]) == Identifiers(ls[1..i]) + {Identifier(ls[i])}
    ensures Identifier(Parent(ls[i])) in {"."} + Identifiers(ls[1..i]) <==> Parent(ls[i]) == [] || Parent(ls[i]) in disk.ddir
  {
    IdentifierInjective(ls[i], []);
    NewIdentifier(ls, i);
    assert ls[1..i + 1][..i - 1] == ls[1..i];
    ParentNodeIff(disk, ls, i, {"."} + Identifiers(ls[1..i]));
  }

  /** An error at step i, after clean steps 1..i-1, is the scan's first failure. */
  lemma FailureAt(disk: Disk, ls: seq<RelPath>, i: nat)
    requires Listing(disk, ls) && 1 <= i < |ls| && [] in disk.attributes
    requires forall j :: 1 <= j < i ==> ItemError(disk, ls[j]) == None
    ensures ItemError(disk, ls[i]).Some? ==> !ScanSucceeds(disk) && FirstFailure(disk, ItemError(disk, ls[i]).value)
  {
    AtFailure(disk, ls, i);
    assert ItemError(disk, ls[i]).Some? ==> LeastFailing(disk, ls[i]);
  }

  /** After the last step, the store is the rebuilt tree and nothing failed. */
  lemma ScanComplete(file: Group, disk: Disk, ls: seq<RelPath>)
    requires Listing(disk, ls) && ScannedUpTo(file, disk, ls, |ls|) && [] in disk.attributes
    ensures ScanSucceeds(disk) && Rebuilt(file, disk)
  {
    forall q | q in disk.ddir && q != [] ensures NodeBuilt(file, disk, q) {
      var j :| 0 <= j < |ls| && ls[j] == q;
      assert NodeBuilt(file, disk, ls[j]);
    }
    ListedIdentifiers(disk, ls);
  }

  /** The identifiers of ls[1..] are those of the directories below the root. */
  lemma ListedIdentifiers(disk: Disk, ls: seq<RelPath>)
    requires Listing(disk, ls)
    ensures Identifiers(ls[1..|ls|]) == set q | q in disk.ddir && q != [] :: Identifier(q)
  {
    var rest := ls[1..|ls|];
    var found := set q | q in disk.ddir && q != [] :: Identifier(q);
    forall id | id in Identifiers(rest) ensures id in found {
      IdentifiersListed(rest, id);
      var k :| 0 <= k < |rest| && Identifier(rest[k]) == id;
      assert rest[k] == ls[k + 1];
    }
    forall id | id in found ensures id in Identifiers(rest) {
      var q :| q in disk.ddir && q != [] && id == Identifier(q);
      var j :| 0 <= j < |ls| && ls[j] == q;
      assert rest[j - 1] == q;
    }
  }

  /**
   * The sorted listing holds every descriptor directory once, starts with
   * the root (so `ls[0] = Path('')` changes nothing), and is ascending.
   */
  lemma SortedListing(disk: Disk, walk: seq<RelPath>)
    requires [] in disk.ddir && Distinct(walk) && forall q :: q in walk <==> q in disk.ddir
    ensures Listing(disk, Sort(walk))
  {
    var ls := Sort(walk);
    PermutationKeepsDistinct(walk, ls);
    forall q ensures q in ls <==> q in disk.ddir {
      assert q in ls <==> q in multiset(ls);
      assert q in walk <==> q in multiset(walk);
    }
    RootFirst(ls);
  }


  /**
   * Lines 53-63, one pass of the scan loop: read the declared type, build
   * the element it names, give it its attributes if it bears them, and
   * create its node under the parent's identifier.
   */
  method AddNode(file: Group, disk: Disk, item: RelPath, parent: RelPath) returns (r: Outcome<Error>)
    requires item in disk.ddir && item != [] && parent == Parent(item)
    requires WellFormed(file.tree) && file.tree.root == Some(".")
    requires Identifier(item) !in file.tree.nodes
    requires Identifier(parent) in file.tree.nodes <==> parent == [] || parent in disk.ddir
    modifies file`tree
    ensures r.Fail? ==> ItemError(disk, item) == Some(r.error) && file.tree == old(file.tree)
    ensures r.Pass? ==> ItemError(disk, item) == None
    ensures r.Pass? ==> WellFormed(file.tree) && file.tree.root == Some(".")
    ensures r.Pass? ==> file.tree.nodes.Keys == old(file.tree.nodes.Keys) + {Identifier(item)}
    ensures r.Pass? ==> forall k :: k in old(file.tree.nodes) ==> file.tree.nodes[k] == old(file.tree.nodes[k])
    ensures r.Pass? ==> var n := file.tree.nodes[Identifier(item)];
                        NodeMatches(n, item, file.path, disk) && fresh(ElementObjects(n.data))
    ensures r.Pass? ==> ElementObjects(file.tree.nodes[Identifier(item)].data) !! old(TreeObjects(file.tree))
    ensures r.Pass? ==> forall q {:trigger NodeBuilt(file, disk, q)} :: old(NodeBuilt(file, disk, q)) ==> NodeBuilt(file, disk, q)
  {
    var descriptor := DescriptorType(disk.ddir[item]);
    if descriptor.Err? {
      return Fail(descriptor.error);
    }
    var built := BuildElement(file.path, item, ElementKindOf(descriptor.value), Get(disk.attributes, item));
    if built.Err? {
      return Fail(built.error);
    }
    var data := built.value;
    forall q | old(NodeBuilt(file, disk, q)) ensures NodeBuilt(file, disk, q) {
      var n := file.tree.nodes[Identifier(q)];
      assert n.data.Some? ==> old(allocated(n.data.value.Obj()));
    }
    var created := CreateNode(file.tree, Name(item), Identifier(item), Some(Identifier(parent)), data);
    if created.Err? {
      return Fail(created.error);
    }
    assert NodeMatches(created.value.nodes[Identifier(item)], item, file.path, disk);
    label Built:
    Commit(file, disk, created.value);
    assert data.Some? ==> data.value.Obj() != file && old@Built(allocated(data.value.Obj()));
    return Pass;
  }

  /**
   * The store's tree replaced by one that keeps every node it had: the
   * directories already built stay built, since their elements are
   * objects other than the File.
   */
  method Commit(file: Group, disk: Disk, t: Tree<Option<Element>>)
    requires forall k :: k in file.tree.nodes ==> k in t.nodes && t.nodes[k] == file.tree.nodes[k]
    modifies file`tree
    ensures file.tree == t
    ensures forall q {:trigger NodeBuilt(file, disk, q)} :: old(NodeBuilt(file, disk, q)) ==> NodeBuilt(file, disk, q)
  {
    file.tree := t;
    forall q | old(NodeBuilt(file, disk, q)) ensures NodeBuilt(file, disk, q) {
      var n := file.tree.nodes[Identifier(q)];
      assert n == old(file.tree.nodes[Identifier(q)]);
      assert n.data.Some? ==> n.data.value.Obj() != file && old(allocated(n.data.value.Obj()));
    }
  }

  /**
   * Lines 54-62: the element for a declared kind (none for any other
   * type), with its attributes read from the directory if the kind
   * bears them; a missing attributes file raises.
   */
  method BuildElement(root: FsPath, item: RelPath, kind: Option<Kind>, attrs: Option<Json.Value>)
    returns (r: Result<Option<Element>, Error>)
    ensures r.Err? <==> kind.Some? && kind.value.BearsAttributes() && attrs.None?
    ensures r.Err? ==> r.error == MissingFile(item + [ATTRIBUTES_FILE])
    ensures r.Ok? ==> ElementMatches(r.value, kind, root + item, attrs) && fresh(ElementObjects(r.value))
  {
    match kind {
      case None =>
        return Ok(None);
      case Some(GroupKind) =>
        var g := new Group(root + item);
        if attrs.None? {
          return Err(MissingFile(item + [ATTRIBUTES_FILE]));
        }
        g.SetAttrs(attrs.value);
        return Ok(Some(GroupEl(g)));
      case Some(DataSetKind) =>
        var d := new DataSet();
        if attrs.None? {
          return Err(MissingFile(item + [ATTRIBUTES_FILE]));
        }
        d.SetAttrs(attrs.value);
        return Ok(Some(DataSetEl(d)));
      case Some(RawKind) =>
        var w := new Raw();
        return Ok(Some(RawEl(w)));
    }
  }

  /**
   * At step i, the parent's identifier is in the store exactly when the
   * parent is the root or a listed directory.
   */
  lemma ParentNodeIff(disk: Disk, ls: seq<RelPath>, i: nat, keys: set<string>)
    requires Ascending(ls) && Distinct(ls) && 1 <= i < |ls| && ls[0] == []
    requires forall q :: q in ls <==> q in disk.ddir
    requires keys == {"."} + Identifiers(ls[1..i])
    ensures ls[i] != []
    ensures Identifier(Parent(ls[i])) in keys <==> Parent(ls[i]) == [] || Parent(ls[i]) in disk.ddir
  {
    var p := Parent(ls[i]);
    if p in disk.ddir {
      var j :| 0 <= j < |ls| && ls[j] == p;
      ParentListedEarlier(ls, i, j);
      if j >= 1 {
        assert ls[1..i][j - 1] == ls[j];
      }
    }
    if Identifier(p) in keys {
      if Identifier(p) != "." {
        IdentifiersListed(ls[1..i], Identifier(p));
        var k :| 0 <= k < i - 1 && Identifier(ls[1..i][k]) == Identifier(p);
        IdentifierInjective(ls[1..i][k], p);
      } else {
        IdentifierInjective(p, []);
      }
    }
  }

  /** A failure at step i, with steps 1..i-1 clean, is the first failure. */
  lemma AtFailure(disk: Disk, ls: seq<RelPath>, i: nat)
    requires Ascending(ls) && 1 <= i < |ls| && ls[0] == [] && ls[i] != []
    requires forall q :: q in ls <==> q in disk.ddir
    requires forall j :: 1 <= j < i ==> ls[j] != [] && ItemError(disk, ls[j]) == None
    ensures forall q' :: q' in disk.ddir && q' != [] && PathLess(q', ls[i]) ==> ItemError(disk, q') == None
  {
    forall q' | q' in disk.ddir && q' != [] && PathLess(q', ls[i]) ensures ItemError(disk, q') == None {
      var j :| 0 <= j < |ls| && ls[j] == q';
      SmallerListedEarlier(ls, i, j);
    }
  }

  /** The identifiers of a list of directories. */
  function Identifiers(qs: seq<RelPath>): (ids: set<string>)
    ensures forall k :: 0 <= k < |qs| ==> Identifier(qs[k]) in ids
  {
    if qs == [] then {} else Identifiers(qs[..|qs| - 1]) + {Identifier(qs[|qs| - 1])}
  }

  /** Every identifier in Identifiers(qs) is that of a listed directory. */
  lemma {:induction false} IdentifiersListed(qs: seq<RelPath>, id: string)
    requires id in Identifiers(qs)
    ensures exists k :: 0 <= k < |qs| && Identifier(qs[k]) == id
  {
    var last := |qs| - 1;
    if Identifier(qs[last]) != id {
      IdentifiersListed(qs[..last], id);
      var k :| 0 <= k < last && Identifier(qs[..last][k]) == id;
      assert qs[..last][k] == qs[k];
    }
  }

  /** A directory listed once has an identifier none of the earlier ones has. */
  lemma NewIdentifier(ls: seq<RelPath>, i: nat)
    requires Distinct(ls) && 1 <= i < |ls|
    ensures Identifier(ls[i]) !in Identifiers(ls[1..i])
  {
    if Identifier(ls[i]) in Identifiers(ls[1..i]) {
      IdentifiersListed(ls[1..i], Identifier(ls[i]));
      var k :| 0 <= k < i - 1 && Identifier(ls[1..i][k]) == Identifier(ls[i]);
      IdentifierInjective(ls[1..i][k], ls[i]);
    }
  }

  /**
   * DataDir(path, mode), lines 30-63: the root must hold a descriptor of
   * type 'file'; the File is created on the root; in modes 'a' and 'r'
   * the tree is rebuilt from every descriptor found under the root.
   */
  method Open(path: FsPath, disk: Disk, walk: seq<RelPath>, mode: string := "r") returns (r: Result<DataDir, Error>)
    requires Distinct(walk) && forall q :: q in walk <==> q in disk.ddir
    ensures !IsRoot(disk) ==> r == Err(RootError(disk).value)
    ensures IsRoot(disk) && !ScansOnOpen(mode) ==> r.Ok?
    ensures IsRoot(disk) && ScansOnOpen(mode) ==> (r.Ok? <==> ScanSucceeds(disk))
    ensures IsRoot(disk) && ScansOnOpen(mode) && r.Err? ==> FirstFailure(disk, r.error)
    ensures r.Ok? ==> && fresh(r.value) && fresh(r.value.data)
                      && r.value.path == path && r.value.mode == mode
                      && r.value.data.path == path && r.value.data.typeTag == FILE
    ensures r.Ok? && !ScansOnOpen(mode) ==>
              var file := r.value.data;
              file.attrs == NoAttributes && file.tree == Tree(Some("."), map["." := RootNode(file)])
    ensures r.Ok? && ScansOnOpen(mode) ==>
              var file := r.value.data;
              file.attrs == disk.attributes[[]] && Rebuilt(file, disk) && WellFormed(file.tree)
    ensures r.Ok? ==> var t := r.value.data.tree;
              SeparateElements(t) && forall k :: k in t.nodes && t.nodes[k].data.Some? ==> fresh(t.nodes[k].data.value.Obj())
  {
    var rootError := RootError(disk);
    if rootError.Some? {
      return Err(rootError.value);
    }
    var file := new Group.File(path);
    var dir := new DataDir(path, mode, file);
    if ScansOnOpen(mode) {
      var scanned := Scan(file, disk, walk);
      if scanned.Fail? {
        return Err(scanned.error);
      }
    }
    return Ok(dir);
  }

  /**
   * DataDir(path, mode) with line 45 as written: the listing is taken
   * relative to the module-level `p` (scriptP). Only the script block
   * binds it (line 153), to the very path it opens (line 154); imported
   * as a module, the core has no `p` at all.
   */
  method OpenAsWritten(path: FsPath, disk: Disk, walk: seq<RelPath>, scriptP: Option<FsPath>, mode: string := "r")
    returns (r: Result<DataDir, Error>)
    requires Distinct(walk) && forall q :: q in walk <==> q in disk.ddir
    requires scriptP.None? || scriptP == Some(path)
    ensures !IsRoot(disk) ==> r == Err(RootError(disk).value)
    ensures IsRoot(disk) && !ScansOnOpen(mode) ==> r.Ok?
    ensures IsRoot(disk) && ScansOnOpen(mode) && scriptP.None? ==> r == Err(UndefinedName("p"))
    ensures IsRoot(disk) && ScansOnOpen(mode) && scriptP.Some? ==> (r.Ok? <==> ScanSucceeds(disk))
    ensures IsRoot(disk) && ScansOnOpen(mode) && scriptP.Some? && r.Err? ==> FirstFailure(disk, r.error)
    ensures r.Ok? ==> && fresh(r.value) && fresh(r.value.data)
                      && r.value.path == path && r.value.mode == mode
                      && r.value.data.path == path && r.value.data.typeTag == FILE
    ensures r.Ok? && !ScansOnOpen(mode) ==>
              var file := r.value.data;
              file.attrs == NoAttributes && file.tree == Tree(Some("."), map["." := RootNode(file)])
    ensures r.Ok? && ScansOnOpen(mode) ==>
              var file := r.value.data;
              file.attrs == disk.attributes[[]] && Rebuilt(file, disk) && WellFormed(file.tree)
    ensures r.Ok? ==> var t := r.value.data.tree;
              SeparateElements(t) && forall k :: k in t.nodes && t.nodes[k].data.Some? ==> fresh(t.nodes[k].data.value.Obj())
  {
    var listed := ListedDirAsWritten(scriptP, path, []);
    if IsRoot(disk) && ScansOnOpen(mode) && listed.Err? {
      return Err(listed.error);
    }
    r := Open(path, disk, walk, mode);
  }

  /** The directory the script block opens (line 153). */
  const SCRIPT_PATH: FsPath := ["..", "data", "example_ddir"]

  /** The item the script block reads (line 156). */
  const SIGNALS: RelPath := ["emg", "signals"]

  /**
   * The script block, lines 152-157: open the example DataDir in the
   * default mode with `p` bound to it, look up 'emg/signals' and take
   * its table, which the lookup loads from that directory's data file.
   */
  method ScriptRead(disk: Disk, walk: seq<RelPath>, load: FsPath -> Table) returns (r: Result<Table, Error>)
    requires Distinct(walk) && forall q :: q in walk <==> q in disk.ddir
    ensures !IsRoot(disk) ==> r == Err(RootError(disk).value)
    ensures IsRoot(disk) && !ScanSucceeds(disk) ==> r.Err? && FirstFailure(disk, r.error)
    ensures IsRoot(disk) && ScanSucceeds(disk) && SIGNALS !in disk.ddir ==> r == Err(InvalidKey("emg/signals"))
    ensures IsRoot(disk) && ScanSucceeds(disk) && SIGNALS in disk.ddir ==>
              (r.Ok? <==> ElementKindOf(DescriptorType(disk.ddir[SIGNALS]).value) == Some(DataSetKind))
    ensures r.Err? && IsRoot(disk) && ScanSucceeds(disk) && SIGNALS in disk.ddir ==> r.error == NoAttribute("df")
    ensures r.Ok? ==> r.value == load(SCRIPT_PATH + SIGNALS + [DATA_FILE])
  {
    assert ScansOnOpen("r");
    var dd := OpenAsWritten(SCRIPT_PATH, disk, walk, Some(SCRIPT_PATH));
    if dd.Err? {
      assert IsRoot(disk) ==> !ScanSucceeds(disk) && FirstFailure(disk, dd.error);
      return Err(dd.error);
    }
    assert IsRoot(disk) && ScanSucceeds(disk);
    ghost var t := dd.value.data.tree;
    assert "emg/signals" in t.nodes && t.nodes["emg/signals"].data.Some? ==> fresh(t.nodes["emg/signals"].data.value.Obj());
    r := ReadSignals(dd.value, disk, load);
  }

  /** Lines 156-157 on the DataDir the script opened: dd_emg = dd['emg/signals'], then its df. */
  method ReadSignals(dd: DataDir, disk: Disk, load: FsPath -> Table) returns (r: Result<Table, Error>)
    requires Rebuilt(dd.data, disk) && dd.data.path == SCRIPT_PATH
    modifies dd.data.LoadTarget("emg/signals")
    ensures SIGNALS !in disk.ddir ==> r == Err(InvalidKey("emg/signals"))
    ensures SIGNALS in disk.ddir ==> (r.Ok? <==> ElementKindOf(DescriptorType(disk.ddir[SIGNALS]).value) == Some(DataSetKind))
    ensures SIGNALS in disk.ddir && r.Err? ==> r.error == NoAttribute("df")
    ensures r.Ok? ==> r.value == load(SCRIPT_PATH + SIGNALS + [DATA_FILE])
  {
    ListedNode(dd.data, disk, SIGNALS);
    SignalsKey();
    r := ReadTable(dd, disk, SIGNALS, load);
  }

  /**
   * str(Path('emg/signals')) is the key the script looks up. This pins the
   * one constant SIGNALS; ReadSignals uses it for the lookup at line 156.
   */
  lemma SignalsKey()
    ensures Identifier(SIGNALS) == "emg/signals"
  {
  }

  /**
   * ddir[str(q)].df, as line 156-157 use it on a DataDir rebuilt from
   * disk: the lookup raises KeyError unless q is listed, and `df` exists
   * only on a DataSet, whose table the lookup loads from q's data file.
   */
  method ReadTable(dd: DataDir, disk: Disk, q: RelPath, load: FsPath -> Table) returns (r: Result<Table, Error>)
    requires NodeListed(dd.data, disk, q)
    modifies dd.data.LoadTarget(Identifier(q))
    ensures q !in disk.ddir ==> r == Err(InvalidKey(Identifier(q)))
    ensures q in disk.ddir ==> (r.Ok? <==> ElementKindOf(DescriptorType(disk.ddir[q]).value) == Some(DataSetKind))
    ensures q in disk.ddir && r.Err? ==> r.error == NoAttribute("df")
    ensures r.Ok? ==> r.value == load(dd.data.path + q + [DATA_FILE])
  {
    DataFileOfNode(dd.data.path, q);
    ghost var before := dd.data.tree;
    var item := dd.GetItem(Identifier(q), load);
    if item.Err? {
      return Err(item.error);
    }
    if item.value.Some? && item.value.value.DataSetEl? {
      var d := item.value.value.dataSet;
      assert before.nodes[Identifier(q)].data == Some(DataSetEl(d));
      assert d.df == LoadedTable(old(d.df), DataFileOf(dd.data.path, Identifier(q)), load);
      return Ok(d.df);
    }
    return Err(NoAttribute("df"));
  }

  /**
   * The node filed under str(q) exists exactly when q is listed, and
   * holds a DataSet, its table still empty, exactly when q's descriptor
   * declares one.
   */
  ghost predicate NodeListed(file: Group, disk: Disk, q: RelPath)
    reads file, if Identifier(q) in file.tree.nodes then ElementObjects(file.tree.nodes[Identifier(q)].data) else {}
  {
    && (Identifier(q) in file.tree.nodes <==> q in disk.ddir)
    && (q in disk.ddir ==>
          var data := file.tree.nodes[Identifier(q)].data;
          && DescriptorType(disk.ddir[q]).Ok?
          && (data.Some? && data.value.DataSetEl? <==> ElementKindOf(DescriptorType(disk.ddir[q]).value) == Some(DataSetKind))
          && (data.Some? && data.value.DataSetEl? ==> data.value.dataSet.df.Empty()))
  }

  /** In a rebuilt tree, every directory other than the root is filed as NodeListed says. */
  lemma ListedNode(file: Group, disk: Disk, q: RelPath)
    requires Rebuilt(file, disk) && q != []
    ensures NodeListed(file, disk, q)
  {
    forall p | p in disk.ddir && p != [] && Identifier(p) == Identifier(q) ensures p == q {
      IdentifierInjective(p, q);
    }
    if q in disk.ddir {
      assert NodeMatches(file.tree.nodes[Identifier(q)], q, file.path, disk);
      EmptyTableIsEmpty();
    }
  }

  /** An open DataDir: its root path, its mode and the File holding the tree. */
  class DataDir {
    const path: FsPath
    const mode: string
    const data: Group

    constructor (path: FsPath, mode: string, data: Group)
      ensures this.path == path && this.mode == mode && this.data == data
    {
      this.path := path;
      this.mode := mode;
      this.data := data;
    }

    /** ddir[item], lines 65-67: the File's lookup. */
    method GetItem(item: string, load: FsPath -> Table) returns (r: Result<Option<Element>, Error>)
      modifies data.LoadTarget(item)
      ensures item !in data.tree.nodes ==> r == Err(InvalidKey(item))
      ensures item in data.tree.nodes ==> r == Ok(data.tree.nodes[item].data)
      ensures item in data.tree.nodes && data.tree.nodes[item].data.Some? && data.tree.nodes[item].data.value.DataSetEl? ==>
                var d := data.tree.nodes[item].data.value.dataSet;
                d.df == LoadedTable(old(d.df), DataFileOf(data.path, item), load) && d.attrs == old(d.attrs)
    {
      r := data.GetItem(item, load);
    }

    /** ddir[key] = value, lines 69-71: the File's type check. */
    method SetItem(key: string, value: ItemValue) returns (r: Outcome<Error>)
      ensures r.Pass? <==> value.Elem?
      ensures value.Other? ==> r == Fail(NotAValidType(value.description))
    {
      r := data.SetItem(key, value);
    }
  }
}
