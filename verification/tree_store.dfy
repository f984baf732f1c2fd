/**
 * The node store the DataDir keeps its hierarchy in (a treelib Tree):
 * nodes keyed by identifier, each with a tag, an optional parent
 * identifier and an attached payload, plus the identifier of the root.
 */
module TreeStore {
  import opened Wrappers
  import opened Errors

  datatype Node<D> = Node(tag: string, identifier: string, parent: Option<string>, data: D)

  datatype Tree<D> = Tree(root: Option<string>, nodes: map<string, Node<D>>)

  /** Tree() */
  function EmptyTree<D>(): (t: Tree<D>)
    ensures WellFormed(t) && t.root.None? && t.nodes.Keys == {}
  {
    Tree(None, map[])
  }

  /**
   * The store's invariant: nodes are filed under their own identifier,
   * the root is the one node without a parent, and every other node's
   * parent is present.
   */
  ghost predicate WellFormed<D>(t: Tree<D>)
  {
    && (t.root.None? ==> t.nodes == map[])
    && (t.root.Some? ==> t.root.value in t.nodes)
    && (forall id :: id in t.nodes ==> t.nodes[id].identifier == id)
    && (forall id :: id in t.nodes ==> (t.nodes[id].parent.None? <==> t.root == Some(id)))
    && (forall id {:trigger t.nodes[id]} :: id in t.nodes && t.nodes[id].parent.Some? ==> t.nodes[id].parent.value in t.nodes)
  }

  /**
   * tree.create_node(tag, identifier, parent, data): refuses an
   * identifier already present, a second root, and an absent parent;
   * otherwise adds exactly one node and keeps every other one.
   */
  function CreateNode<D>(t: Tree<D>, tag: string, id: string, parent: Option<string>, data: D): (r: Result<Tree<D>, Error>)
    ensures id in t.nodes ==> r == Err(DuplicatedNodeId(id))
    ensures id !in t.nodes && parent.None? && t.root.Some? ==> r == Err(MultipleRoot)
    ensures id !in t.nodes && parent.Some? && parent.value !in t.nodes ==> r == Err(NodeIdAbsent(parent.value))
    ensures r.Ok? <==> id !in t.nodes && (if parent.None? then t.root.None? else parent.value in t.nodes)
    ensures r.Ok? ==> r.value.nodes.Keys == t.nodes.Keys + {id}
    ensures r.Ok? ==> r.value.nodes[id] == Node(tag, id, parent, data)
    ensures r.Ok? ==> forall k :: k in t.nodes ==> r.value.nodes[k] == t.nodes[k]
    ensures r.Ok? ==> r.value.root == if parent.None? then Some(id) else t.root
    ensures r.Ok? && WellFormed(t) ==> WellFormed(r.value)
  {
    var node := Node(tag, id, parent, data);
    if id in t.nodes then Err(DuplicatedNodeId(id))
    else if parent.None? then
      if t.root.Some? then Err(MultipleRoot) else Ok(Tree(Some(id), t.nodes[id := node]))
    else if parent.value !in t.nodes then Err(NodeIdAbsent(parent.value))
    else Ok(Tree(t.root, t.nodes[id := node]))
  }
}
