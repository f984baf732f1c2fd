/** The exceptions the DataDir core can raise, one variant per cause. */
module Errors {

  datatype Error =
    /** ValueError: the root directory holds no ddir.json. */
    | NotADataDir
    /** ValueError: the root descriptor declares a type other than 'file'. */
    | NotTheRoot
    /** KeyError while indexing a descriptor (d['ddir'] or d['ddir']['type']). */
    | KeyMissing(key: string)
    /** TypeError: a descriptor, or its 'ddir' entry, is not a JSON object. */
    | NotSubscriptable
    /** FileNotFoundError from json.load; the path is relative to the root. */
    | MissingFile(path: seq<string>)
    /** The node store already holds this identifier. */
    | DuplicatedNodeId(id: string)
    /** A second parentless node was offered to a store that has a root. */
    | MultipleRoot
    /** The parent identifier named for a new node is not in the store. */
    | NodeIdAbsent(id: string)
    /** KeyError from Group.__getitem__: "<item> is not a valid key". */
    | InvalidKey(key: string)
    /** ValueError from Group.__setitem__: "<value> is not a valid type". */
    | NotAValidType(value: string)
    /** NameError: a module-level name that is not defined. */
    | UndefinedName(name: string)
    /** ValueError from Path.relative_to: the path does not start with the base. */
    | NotRelative(path: seq<string>, base: seq<string>)
    /** AttributeError: the object has no attribute of this name. */
    | NoAttribute(name: string)
}
