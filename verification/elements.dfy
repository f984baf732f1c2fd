/**
 * The elements a DataDir node can carry (Group and its subclass File,
 * DataSet, Raw, Attribute), the type tags they report, and the Group's
 * item lookup (with the lazy table load) and item assignment.
 */
module Elements {
  import opened Wrappers
  import opened Errors
  import Json
  import opened Paths
  import opened TreeStore

  // DataDirTypes
  const FILE: string := "file"
  const GROUP: string := "group"
  const DATASET: string := "dataset"
  const RAW: string := "raw"

  // File names inside each node's directory
  const DDIR_FILE: string := "ddir.json"
  const ATTRIBUTES_FILE: string := "attributes.json"
  const DATA_FILE: string := "data.parq"

  /** The attribute map every attribute-bearing element starts with ({}). */
  const NoAttributes: Json.Value := Json.Object(map[])

  /**
   * A data frame, kept only as far as the core looks at it: its column
   * labels and its rows. pandas calls it empty when either axis has
   * length zero.
   */
  datatype Table = Table(columns: seq<string>, rows: seq<seq<Json.Value>>)
  {
    predicate Empty()
    {
      |columns| == 0 || |rows| == 0
    }
  }

  /** pd.DataFrame() */
  const EmptyTable: Table := Table([], [])

  /**
   * A DataFrame built with no data reports `empty`. This pins the one
   * constant EmptyTable; ListedNode uses it for a freshly scanned DataSet.
   */
  lemma EmptyTableIsEmpty()
    ensures EmptyTable.Empty()
  {
  }

  /** The element kinds the open-time scan can build from a type tag. */
  datatype Kind = GroupKind | DataSetKind | RawKind
  {
    /** isinstance(element, ElementWithAttributes) */
    predicate BearsAttributes()
    {
      GroupKind? || DataSetKind?
    }
  }

  /** The `type` field each kind of element sets in its constructor. */
  function TypeTag(k: Kind): string
  {
    match k
    case GroupKind => GROUP
    case DataSetKind => DATASET
    case RawKind => RAW
  }

  /** What a node's `data` refers to. */
  datatype Element =
    | GroupEl(group: Group)
    | DataSetEl(dataSet: DataSet)
    | RawEl(raw: Raw)
    | AttributeEl(attribute: Attribute)
  {
    function Obj(): object
    {
      match this
      case GroupEl(g) => g
      case DataSetEl(d) => d
      case RawEl(w) => w
      case AttributeEl(a) => a
    }
  }

  function ElementObjects(e: Option<Element>): set<object>
  {
    if e.Some? then {e.value.Obj()} else {}
  }

  /** Any value a caller may assign: one of the four elements, or something else. */
  datatype ItemValue = Elem(element: Element) | Other(description: string)

  /** The location `path / item / DATA_FILE` of an item's table. */
  function DataFileOf(path: FsPath, item: string): (location: FsPath)
    ensures path <= location && |location| > |path| && location[|location| - 1] == DATA_FILE
  {
    path + Parts(item) + [DATA_FILE]
  }

  /** The table of the node filed under str(q) is read from q's own directory. */
  lemma DataFileOfNode(path: FsPath, q: RelPath)
    ensures DataFileOf(path, Identifier(q)) == path + q + [DATA_FILE]
  {
    PartsOfIdentifier(q);
  }

  /** The table a DataSet holds after a lookup: loaded only if it was empty. */
  function LoadedTable(current: Table, location: FsPath, load: FsPath -> Table): Table
  {
    if current.Empty() then load(location) else current
  }

  /** A loaded table that is not empty is never replaced by a later lookup. */
  lemma LoadedTableSettles(current: Table, location: FsPath, load: FsPath -> Table)
    ensures !LoadedTable(current, location, load).Empty() ==>
              LoadedTable(LoadedTable(current, location, load), location, load) == LoadedTable(current, location, load)
    ensures LoadedTable(current, location, load).Empty() ==>
              LoadedTable(LoadedTable(current, location, load), location, load) == load(location)
  {
  }

  /** Group, and with the File constructor, the root container. */
  class Group {
    var attrs: Json.Value
    const path: FsPath
    const typeTag: string
    var tree: Tree<Option<Element>>

    /** Group(path): no attributes and an empty tree. */
    constructor (path: FsPath)
      ensures this.path == path && typeTag == GROUP
      ensures attrs == NoAttributes && tree == EmptyTree()
    {
      this.path := path;
      typeTag := GROUP;
      attrs := NoAttributes;
      tree := EmptyTree();
    }

    /** File(path): a Group whose tree holds the root node '.' carrying the File itself. */
    constructor File(path: FsPath)
      ensures this.path == path && typeTag == FILE && attrs == NoAttributes
      ensures tree == Tree(Some("."), map["." := Node(".", ".", None, Some(GroupEl(this)))])
      ensures WellFormed(tree)
    {
      this.path := path;
      typeTag := FILE;
      attrs := NoAttributes;
      tree := EmptyTree();
      new;
      var created := CreateNode(tree, ".", ".", None, Some(GroupEl(this)));
      tree := created.value;
    }

    /** set_attrs: the attribute map is replaced as a whole. */
    method SetAttrs(a: Json.Value)
      modifies this`attrs
      ensures attrs == a
    {
      attrs := a;
    }

    /** The DataSet a lookup of `item` may load a table into, if any. */
    function LoadTarget(item: string): set<object>
      reads this
    {
      if item in tree.nodes && tree.nodes[item].data.Some? && tree.nodes[item].data.value.DataSetEl?
      then {tree.nodes[item].data.value.dataSet}
      else {}
    }

    /**
     * group[item]: a missing identifier raises KeyError; a DataSet whose
     * table is empty gets the table read from path/item/data.parq; the
     * node's element is returned.
     */
    method GetItem(item: string, load: FsPath -> Table) returns (r: Result<Option<Element>, Error>)
      modifies LoadTarget(item)
      ensures item !in tree.nodes ==> r == Err(InvalidKey(item))
      ensures item in tree.nodes ==> r == Ok(tree.nodes[item].data)
      ensures item in tree.nodes && tree.nodes[item].data.Some? && tree.nodes[item].data.value.DataSetEl? ==>
                var d := tree.nodes[item].data.value.dataSet;
                d.df == LoadedTable(old(d.df), DataFileOf(path, item), load) && d.attrs == old(d.attrs)
    {
      if item !in tree.nodes {
        return Err(InvalidKey(item));
      }
      var node := tree.nodes[item];
      if node.data.Some? && node.data.value.DataSetEl? {
        var d := node.data.value.dataSet;
        if d.df.Empty() {
          d.df := load(DataFileOf(path, item));
        }
      }
      return Ok(node.data);
    }

    /** group[key] = value: only the four element kinds pass; nothing is stored. */
    method SetItem(key: string, value: ItemValue) returns (r: Outcome<Error>)
      ensures r.Pass? <==> value.Elem?
      ensures value.Other? ==> r == Fail(NotAValidType(value.description))
    {
      match value
      case Elem(GroupEl(_)) => r := Pass;
      case Elem(DataSetEl(_)) => r := Pass;
      case Elem(RawEl(_)) => r := Pass;
      case Elem(AttributeEl(_)) => r := Pass;
      case Other(description) => r := Fail(NotAValidType(description));
    }
  }

  class DataSet {
    var attrs: Json.Value
    var df: Table
    const typeTag: string

    /** DataSet(df=pd.DataFrame()): no attributes, the given table, empty when none is given. */
    constructor (df: Table := EmptyTable)
      ensures this.df == df && attrs == NoAttributes && typeTag == DATASET
    {
      this.df := df;
      attrs := NoAttributes;
      typeTag := DATASET;
    }

    /** set_attrs: the attribute map is replaced as a whole. */
    method SetAttrs(a: Json.Value)
      modifies this`attrs
      ensures attrs == a
    {
      attrs := a;
    }
  }

  class Raw {
    const typeTag: string

    constructor ()
      ensures typeTag == RAW
    {
      typeTag := RAW;
    }
  }

  class Attribute {
    const typeTag: Option<string>

    constructor ()
      ensures typeTag == None
    {
      typeTag := None;
    }
  }
}
