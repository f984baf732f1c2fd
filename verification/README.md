# DataDir tree engine, modelled in Dafny

A DataDir is a directory tree on disk. Every directory that belongs to it
holds a descriptor `ddir.json` whose `['ddir']['type']` names what the
directory is:

- the root is `'file'`;
- below it are `'group'`, `'dataset'` and `'raw'` directories.

Groups and datasets also carry an `attributes.json`. A dataset's table
lives in `data.parq`.

Opening a DataDir (`DataDir(path, mode)`) first checks the root
descriptor. It then creates the root container `File`, whose node store
(a treelib `Tree`) starts with the single root node `'.'`. In modes `'a'`
and `'r'` it rebuilds the store: it lists every descriptor under the root
in sorted path order and creates one node per directory. Each node is
filed under `str(path)`, tagged with the directory's name, hung under
`str(path.parent)`, and carries the element its type names. Looking up
an identifier returns that element, loading a dataset's table whenever
it is found empty. Assigning an item only checks the kind of the
value.

The model follows `data_dir/data_dir.py`. The file
`data_dir/src/data_dir.py` is a byte-identical copy, so every row below
holds for both.

Modules:

- `Wrappers`: `Option`, `Result` and `Outcome`.
- `Errors`: one variant per exception the core raises.
- `Json`: parsed JSON values.
- `Paths`: relative directory paths as segment lists.
  - `str(path)` of a POSIX path becomes `Identifier`; `path / key` becomes `Parts`.
  - Python's POSIX path ordering becomes `PathLess`; `sorted()` becomes `Sort`.
- `TreeStore`: the treelib store, and `create_node` with its three refusals.
- `Elements`: the element classes `Group` (with its `File` constructor),
  `DataSet`, `Raw` and `Attribute`, plus the lookup and the assignment.
- `DataDirRoot`: the disk as input, descriptor reading, type dispatch,
  the listing base of line 45, and the specification of a successful
  and of a failing scan.
- `DataDirOpen`: the scan loop, `Open` (with the line-45 variant as
  written), the `DataDir` class and the `__main__` block.

The filesystem is an input. `Disk` maps each directory that has a
descriptor to its parsed `ddir.json`, and each directory that has an
attributes file to its parsed `attributes.json`. The glob's result is
the sequence `walk` of those directories. The parquet reader is a
function parameter `load`. Default arguments are Dafny default
parameters: `mode` is `"r"` unless given, and a DataSet's table is the
empty `pd.DataFrame()` unless given.

## Model

| member | source | states |
|---|---|---|
| Paths.Name | data_dir/data_dir.py:63 | `item.name`: the last directory name of a non-root path |
| Paths.Parent | data_dir/data_dir.py:51-52 | `item.parent`: the path without its last name, the root for a top-level directory |
| Paths.Identifier | data_dir/data_dir.py:63 | `str(item)`: the root prints as `'.'` and no other directory does, so top-level nodes hang under the root node |
| Paths.SplitJoin | data_dir/data_dir.py:101 | splitting a '/'-joined identifier on '/' gives back exactly its directory names |
| Paths.SplitAt | data_dir/data_dir.py:101 | splitting a name without '/', a '/' and the rest gives that name followed by the rest's pieces |
| Paths.DropDotsKeepsSegments | data_dir/data_dir.py:101 | parsing drops no real directory name: a list of names passes through unchanged |
| Paths.Parts | data_dir/data_dir.py:101 | `self.path / item` with a relative key: the key's '/'-separated pieces, none of them empty, `'.'` or holding a '/' |
| Paths.PartsOfIdentifier | data_dir/data_dir.py:101 | the path `self.path / item` names for a node's identifier is that node's own directory (parsing inverts `str`) |
| Paths.IdentifierInjective | data_dir/data_dir.py:63 | two directories have the same identifier if and only if they are the same directory |
| Paths.CharsLess | data_dir/data_dir.py:45 | Python's `str <` on directory names: character by character, a proper prefix sorting first |
| Paths.CharsLessIrreflexive | data_dir/data_dir.py:45 | no name sorts before itself |
| Paths.CharsLessTransitive | data_dir/data_dir.py:45 | name order is transitive |
| Paths.CharsLessTotal | data_dir/data_dir.py:45 | of two different names, one sorts first |
| Paths.PathLess | data_dir/data_dir.py:45 | `Path.__lt__` up to Python 3.11: the parts lists compared name by name, a proper prefix sorting first, so the root sorts before everything |
| Paths.PathLessIrreflexive | data_dir/data_dir.py:45 | no path sorts before itself |
| Paths.PathLessTransitive | data_dir/data_dir.py:45 | path order is transitive |
| Paths.PathLessTotal | data_dir/data_dir.py:45 | of two different paths, one sorts first |
| Paths.PathLessAsymmetric | data_dir/data_dir.py:45 | two paths never sort before each other |
| Paths.NotLessTransitive | data_dir/data_dir.py:45 | "sorts no later than" is transitive |
| Paths.ParentPrecedes | data_dir/data_dir.py:45 | a directory's parent sorts strictly before it |
| Paths.Insert | data_dir/data_dir.py:45 | inserting a path into an ascending list keeps it ascending and adds exactly that path |
| Paths.Sort | data_dir/data_dir.py:45 | `sorted()`: the result is ascending and a permutation of the listing |
| Paths.AtMostOnce | data_dir/data_dir.py:45 | in a duplicate-free list every value occurs at most once in its multiset |
| Paths.DistinctCount | data_dir/data_dir.py:45 | a list is duplicate-free if and only if no value occurs twice in its multiset |
| Paths.PermutationKeepsDistinct | data_dir/data_dir.py:45 | sorting a duplicate-free listing leaves it duplicate-free |
| Paths.RootFirst | data_dir/data_dir.py:45-46 | when the root is listed, it is first, so `ls[0] = Path('')` puts the root where it already is |
| Paths.ParentListedEarlier | data_dir/data_dir.py:45-63 | in the sorted listing, a directory's parent, if listed, comes before it, so its node exists when the child's is created |
| Paths.SmallerListedEarlier | data_dir/data_dir.py:45-63 | whatever sorts before an entry of the sorted listing is listed before it |
| TreeStore.EmptyTree | data_dir/data_dir.py:90 | `Tree()`: no root and no nodes, which satisfies the store invariant |
| TreeStore.WellFormed | data_dir/data_dir.py:63 | the store invariant `create_node` keeps: nodes filed under their own identifier, the root the only node without a parent, every other parent present |
| TreeStore.CreateNode | data_dir/data_dir.py:63 | `create_node`: an existing identifier, a second root and an absent parent are refused with their errors; otherwise exactly the new node is added, every other node and the root are kept, and the store invariant (nodes under their own identifier, one root, parents present) is preserved |
| Elements.Table.Empty | data_dir/data_dir.py:100 | `df.empty`: a table with no columns or no rows |
| Elements.Kind.BearsAttributes | data_dir/data_dir.py:61 | `isinstance(data, ElementWithAttributes)`: Group and DataSet bear attributes, Raw does not |
| Elements.TypeTag | data_dir/data_dir.py:88 | the `type` each element kind's constructor sets: `'group'`, `'dataset'` (line 132), `'raw'` (line 138) |
| Elements.EmptyTableIsEmpty | data_dir/data_dir.py:129 | the default `pd.DataFrame()` is empty, so the first lookup of a freshly scanned DataSet reads its file |
| Elements.DataFileOf | data_dir/data_dir.py:101 | `self.path / item / DATA_FILE`: a location below the Group's path ending in `data.parq` |
| Elements.DataFileOfNode | data_dir/data_dir.py:101 | for a node's own identifier, that location is the directory's `data.parq` |
| Elements.LoadedTable | data_dir/data_dir.py:100-101 | the table a DataSet holds after a lookup: read from the file when it was empty, kept otherwise |
| Elements.Group.constructor | data_dir/data_dir.py:85-90 | a new Group has the given path, type `'group'`, no attributes and an empty store |
| Elements.Group.File | data_dir/data_dir.py:119-124 | a new File has type `'file'`, no attributes, and a well-formed store whose only node is the root `'.'`: tag `'.'`, no parent, the File itself as element |
| Elements.Group.SetAttrs | data_dir/data_dir.py:79-80 | `set_attrs` replaces the attribute map wholesale and changes nothing else |
| Elements.DataSet.SetAttrs | data_dir/data_dir.py:79-80 | the same wholesale replacement for a DataSet |
| Elements.Group.GetItem | data_dir/data_dir.py:92-103 | a missing identifier raises KeyError ("not a valid key") and changes nothing; otherwise the node's element is returned, and a DataSet's table becomes the loader's table for `path/item/data.parq` exactly when it was empty, with its attributes untouched; only that DataSet may change |
| Elements.Group.SetItem | data_dir/data_dir.py:105-116 | the four element kinds are accepted and anything else raises ValueError; in every case nothing changes |
| Elements.DataSet.constructor | data_dir/data_dir.py:127-132 | a new DataSet has type `'dataset'`, no attributes and the given table; with no argument, the default, the empty `pd.DataFrame()` |
| Elements.Raw.constructor | data_dir/data_dir.py:135-138 | a new Raw has type `'raw'` |
| Elements.Attribute.constructor | data_dir/data_dir.py:141-144 | a new Attribute has no type |
| Elements.LoadedTableSettles | data_dir/data_dir.py:99-101 | a loaded non-empty table is kept by every later lookup; an empty one is read again |
| DataDirRoot.DescriptorType | data_dir/data_dir.py:37-38 | `d['ddir']['type']` succeeds exactly when the descriptor is an object with a `'ddir'` object holding `'type'`, and yields that value; a missing `'ddir'` raises KeyError |
| DataDirRoot.ElementKindOf | data_dir/data_dir.py:54-60 | the dispatch picks the kind whose type tag was declared, and no kind for any other value |
| DataDirRoot.IsRoot | data_dir/data_dir.py:34-39 | the root check passes: `ddir.json` exists at the root and declares type `'file'` |
| DataDirRoot.RootError | data_dir/data_dir.py:34-39 | the root check raises nothing exactly when IsRoot holds; otherwise, in order, "not a DataDir" for a missing descriptor, the KeyError or TypeError of an unreadable one, "not the root" for another type |
| DataDirRoot.ScansOnOpen | data_dir/data_dir.py:43 | `mode in list('ar')`: exactly the modes `'a'` and `'r'` rebuild the tree |
| DataDirRoot.ItemError | data_dir/data_dir.py:53-63 | what stops the scan at a directory, in the order the code meets it: an unreadable descriptor, a missing attributes file for Group or DataSet, a parent without a node |
| DataDirRoot.ScanSucceeds | data_dir/data_dir.py:48-63 | lines 48-63 raise nothing: the root has an attributes file and every listed directory below it passes its step (ItemError is none) |
| DataDirRoot.FirstFailure | data_dir/data_dir.py:48-63 | the exception lines 48-63 raise: FileNotFoundError for the root's missing attributes file at line 48, else the ItemError of the listed directory that fails and sorts first |
| DataDirRoot.FirstFailureDetermined | data_dir/data_dir.py:48-63 | the exception a failing scan raises is determined by the disk alone |
| DataDirRoot.ScanSucceedsNeedsParents | data_dir/data_dir.py:63 | a scan that succeeds found a descriptor in the parent of every listed directory below the top level |
| DataDirRoot.RelativeTo | data_dir/data_dir.py:45 | `relative_to` succeeds exactly when the base is a prefix, and the base followed by the result is the path; otherwise ValueError |
| DataDirRoot.ParentOf | data_dir/data_dir.py:45 | `.parent` of a relative location: the location without its last part, the empty path staying empty |
| DataDirRoot.ListedDirAsWritten | data_dir/data_dir.py:45 | as written, without a module-level `p` the listing raises NameError; with `p` equal to the root it gives each directory back |
| DataDirRoot.ListedDir | data_dir/data_dir.py:45 | relative to the root, each descriptor found gives back its own directory |
| DataDirRoot.ElementMatches | data_dir/data_dir.py:54-62 | the element built for a declared kind: a Group on the directory's path with its attributes and an empty store, a DataSet with its attributes and the empty table, a Raw, or none for any other type |
| DataDirRoot.NodeMatches | data_dir/data_dir.py:63 | the node `create_node` files for directory q: tag `item.name`, identifier `str(item)`, parent `str(item.parent)`, and the matching element |
| DataDirRoot.RootNode | data_dir/data_dir.py:124 | the node the File constructor creates: tag and identifier `'.'`, no parent, the File itself as data |
| DataDirRoot.Rebuilt | data_dir/data_dir.py:50-63 | the store after a clean scan: the root node `'.'`, and exactly one matching node for every listed directory, filed under its identifier |
| DataDirRoot.SeparateAfterAdd | data_dir/data_dir.py:54-63 | a node whose element is an object no existing node holds keeps every two nodes' elements apart |
| DataDirOpen.Open | data_dir/data_dir.py:30-63 | a failing root check raises its RootError. Otherwise: outside `'a'`/`'r'` the open succeeds with the root node alone and no attributes; in `'a'`/`'r'` (the default mode is `'r'`) it succeeds exactly when every listed directory passes its step, else it raises the first failure; on success the store is the rebuilt tree and the File has the root's attributes; every node's element is a new object, and no two nodes share one |
| DataDirOpen.OpenAsWritten | data_dir/data_dir.py:30-63 | with line 45 as written: a failing root check raises as in Open; in `'a'`/`'r'` without a module-level `p` the open raises NameError, and with `p` bound to the opened path it succeeds or fails exactly as Open does, with the same rebuilt tree of new, unshared elements |
| DataDirOpen.Scan | data_dir/data_dir.py:45-63 | the scan succeeds exactly when the root has attributes and no listed directory fails its step; a failure is the first in sorted order; on success the File holds the root's attributes and a well-formed store with the root node and one matching node per listed directory, each below the root holding a new element object that no other node shares |
| DataDirOpen.ScanListing | data_dir/data_dir.py:50-63 | walking the sorted listing creates every node, or stops at the first directory that fails; the nodes it creates hold new, pairwise unshared elements |
| DataDirOpen.ScanStep | data_dir/data_dir.py:51-63 | one pass adds exactly the directory's matching node, holding a new element object shared with no other node, keeps every earlier node unchanged and still matching; otherwise it raises the error that directory meets |
| DataDirOpen.StepFacts | data_dir/data_dir.py:50-63 | after clean earlier steps, the directory's identifier is new, its parent has a node exactly when the parent is listed or is the root, and an error here is the scan's first failure |
| DataDirOpen.StepOrder | data_dir/data_dir.py:45-63 | in sorted order, no earlier directory shares the identifier, and the parent's node exists exactly when the parent is the root or a listed directory |
| DataDirOpen.FailureAt | data_dir/data_dir.py:50-63 | an error after clean earlier steps means the scan does not succeed and this is its first failure |
| DataDirOpen.AtFailure | data_dir/data_dir.py:50-63 | everything that sorts before the failing directory passed its step |
| DataDirOpen.ParentNodeIff | data_dir/data_dir.py:63 | the parent's identifier is among the nodes already created exactly when the parent is the root or a listed directory |
| DataDirOpen.ScanComplete | data_dir/data_dir.py:50-63 | after the last step every listed directory passed, and the store is the rebuilt tree |
| DataDirOpen.ListedIdentifiers | data_dir/data_dir.py:63 | the identifiers created are exactly those of the directories below the root |
| DataDirOpen.SortedListing | data_dir/data_dir.py:45-46 | the sorted glob lists every descriptor directory once, root first, in ascending order |
| DataDirOpen.NewIdentifier | data_dir/data_dir.py:63 | a directory listed once never finds its identifier taken by an earlier one, so `DuplicatedNodeId` never arises |
| DataDirOpen.Identifiers | data_dir/data_dir.py:63 | the identifiers created for a run of directories include the identifier of every one of them |
| DataDirOpen.IdentifiersListed | data_dir/data_dir.py:63 | every identifier created belongs to a listed directory |
| DataDirOpen.AddNode | data_dir/data_dir.py:53-63 | an unreadable descriptor, a missing attributes file or an absent parent raises, in that order, and leaves the store as it was; otherwise exactly one node, with a freshly built matching element, joins a store that stays well-formed; the new element is an object the store did not hold, and every directory already built stays built |
| DataDirOpen.Commit | data_dir/data_dir.py:63 | `create_node` updates the File's store in place: the store becomes the extended tree, and every directory already built stays built |
| DataDirOpen.BuildElement | data_dir/data_dir.py:54-62 | `'group'` gives a new Group on root/item with an empty store, `'dataset'` a new DataSet with an empty table, `'raw'` a new Raw, any other tag no element; attributes go to Group and DataSet only, and their absence raises FileNotFoundError |
| DataDirOpen.ScriptRead | data_dir/data_dir.py:152-157 | the `__main__` block: a failing root check or scan raises as the open does; otherwise the lookup of `'emg/signals'` raises KeyError unless that directory is listed, `.df` raises AttributeError unless it holds a DataSet, and the result is the table read from `../data/example_ddir/emg/signals/data.parq` |
| DataDirOpen.ReadSignals | data_dir/data_dir.py:156-157 | on the opened example DataDir, `dd['emg/signals'].df` with the same KeyError, AttributeError and loaded-table outcomes |
| DataDirOpen.ReadTable | data_dir/data_dir.py:65-67 | `ddir[str(q)].df` on a rebuilt DataDir: KeyError unless q is listed, AttributeError unless q holds a DataSet, else the table loaded from q's `data.parq` |
| DataDirOpen.ListedNode | data_dir/data_dir.py:50-63 | in a rebuilt tree, the node filed under `str(q)` exists exactly when q is listed, and holds a DataSet with a still-empty table exactly when q's descriptor declares one |
| DataDirOpen.SignalsKey | data_dir/data_dir.py:156 | the key `'emg/signals'` is `str` of the directory emg/signals |
| DataDirOpen.DataDir.constructor | data_dir/data_dir.py:30-41 | a DataDir keeps its path, its mode and its File |
| DataDirOpen.DataDir.GetItem | data_dir/data_dir.py:65-67 | `ddir[item]` has exactly the File's lookup contract |
| DataDirOpen.DataDir.SetItem | data_dir/data_dir.py:69-71 | `ddir[key] = value` has exactly the File's check: four kinds accepted, anything else ValueError, nothing changed |

## Left out

- Filesystem and JSON I/O (`exists`, `open`, `glob`, `json.load`) are inputs. A descriptor or attributes file that is not valid JSON is not modelled.
- JSON numbers are integers only; floating point is not modelled.
- The scan's `walk` must list each descriptor directory once, and exactly those. This links two inputs that describe the same tree; it is not a demand the code makes.
- pandas and pyarrow: a table is its columns and rows, empty when either is empty. The parquet read is the total function `load`, so a missing `data.parq` is not modelled.
- treelib internals are not visible. The store is modelled as a root identifier plus a map from identifiers to nodes. `tree.show()` and the rest of treelib's API are not modelled.
- Elements.Group.GetItem: a missing identifier is taken to raise KeyError inside `self.tree[item]`, which line 96 turns into "not a valid key". treelib is not part of this model, and some treelib releases raise `NodeIDAbsentError` from `Tree.__getitem__` instead; that class does not derive from KeyError, so with such a release the `except KeyError` at line 96 would not fire and the lookup would raise `NodeIDAbsentError` unchanged.
- Only POSIX paths are modelled: identifiers are '/'-separated and the order is case-sensitive. On Windows, `str(item)` joins segments with '\\', so the script's key 'emg/signals' (line 156) would miss, and the parts are compared case-folded, so `sorted` at line 45 would ignore case where Paths.CharsLess compares code points.
- Path ordering follows Python up to 3.11, which compares the lists of parts, so the root `Path('.')` sorts first. From 3.12, pathlib compares the '/'-split string, where the root is `'.'`. A directory whose name starts with a character below `'.'` would then sort before the root and be replaced by it. That ordering is not modelled.
- Paths.Parts drops empty pieces, so a lookup key starting with '/' is joined under the root, where pathlib would replace the root. Identifiers never start with '/', so the table load, which needs a stored identifier, is unaffected.
- Exception messages are not modelled, only which exception is raised and for which key, file or value.
- `_write_ddir_json` (data_dir/data_dir.py:147-149) only writes a file and is not modelled. It writes `type` and `version` at the top level, while the reader expects `d['ddir']['type']` (lines 38 and 53): a descriptor it writes cannot be opened.
- The `__main__` block (lines 152-157) is modelled by ScriptRead except `dd.data.tree.show()` (line 155), which only prints. `__version__` and the unused imports (numpy, OrderedDict, pyarrow) are not modelled.
- OpenAsWritten: the module-level `p` is a parameter that is either absent (the module imported) or bound to the path being opened (the `__main__` block binds it at line 153 and opens that same path at line 154). A `p` bound to some other directory is not modelled.
- The default `pd.DataFrame()` of line 129 is one object shared by every DataSet built without an argument. The code only rebinds `df` (line 101), never mutates it, so the sharing is unobservable; the model gives each DataSet the empty table as a value.
- Merging, attribute fallback on lookup, persistence of assignments and a read-only mode do not exist in this code. `__setitem__` only checks the value's kind.
- The mode string is stored as given. Only membership in `'a'`/`'r'` is modelled, as the code uses it.

## Findings

| source | as written | input that shows it | evidently intended | confidence | as-written member | corrected member |
|---|---|---|---|---|---|---|
| data_dir/data_dir.py:45 | the glob results are taken `relative_to(p)`, where `p` is a module-level name that only the `__main__` block (line 153) defines | import the module and open any valid DataDir in the default mode `'r'`: File's constructor (lines 119-124, run from line 41) has already created the root node '.', then line 45 raises NameError before any directory below the root gets a node | list relative to the DataDir's own path (`self.path`) | high; not executed | DataDirOpen.OpenAsWritten (with DataDirRoot.ListedDirAsWritten) | DataDirOpen.Open, whose scan walks `walk`, which DataDirRoot.ListedDir shows is the root-relative listing of the descriptors |
