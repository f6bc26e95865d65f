/**
 * What every tree node shares: identities, the parent back-links, the
 * event log that stands for the shared refresh channel, and the cached
 * child list with its `loading` guard.
 */
module Tree {
  import opened Wrappers

  /** The concrete node variant an identity belongs to. */
  datatype Kind = ConfigurationKind | ResultsKind | ReportKind | HintKind | QuickfixesKind | FolderKind | FileKind

  /**
   * The identity of one node object. `serial` is handed out by `Alloc`, so
   * two nodes built by two separate `new` expressions never share an identity.
   */
  datatype NodeId = NodeId(kind: Kind, serial: nat)

  /** What the nodes send to their collaborators, in emission order. */
  datatype Event =
    | ItemRefreshed(node: NodeId)                        // the node's display item re-derived its state
    | ProviderRefresh(node: NodeId)                      // the data provider was asked to redraw `node`
    | NodeRefresh(origin: NodeId, target: Option<NodeId>) // the base-class refresh, with its optional target

  /** Why an operation stopped part-way (the source throws a TypeError). */
  datatype Fault =
    | NoTreeItem   // the node's display item was never created
    | NoSummary    // the configuration has no result summary yet

  /**
   * Everything outside the node records: each child's back-link to its parent,
   * the log of emitted events, and the next unused serial.
   */
  datatype Env = Env(parents: map<NodeId, NodeId>, log: seq<Event>, nextSerial: nat)

  /** The cached children of a node and its reentrancy guard. */
  datatype ChildCache = ChildCache(loading: bool, children: seq<NodeId>)

  /** Children as handed to the display: nothing while a load is in flight. */
  function GetChildren(c: ChildCache): seq<NodeId>
  {
    if c.loading then [] else c.children
  }

  /** The expand affordance: looks only at the cache, never at the guard. */
  predicate HasMoreChildren(c: ChildCache)
  {
    |c.children| > 0
  }

  /**
   * The read side of the cache: while loading nothing is shown; otherwise
   * exactly the cache is shown, and the expand affordance is offered iff
   * something is shown.
   */
  lemma ReadSide(c: ChildCache)
    ensures c.loading ==> GetChildren(c) == []
    ensures !c.loading ==> GetChildren(c) == c.children
    ensures !c.loading ==> (HasMoreChildren(c) <==> GetChildren(c) != [])
    ensures HasMoreChildren(c) <==> c.children != []
  {
  }

  /** No identity occurs twice. */
  predicate Distinct(cs: seq<NodeId>)
  {
    forall i, j :: 0 <= i < j < |cs| ==> cs[i] != cs[j]
  }

  /** The result of allocating a fresh node identity. */
  datatype Allocated = Allocated(id: NodeId, env: Env)

  /** `new` for a node of the given kind: a serial no earlier node has. */
  function Alloc(env: Env, kind: Kind): (r: Allocated)
    ensures r.id.kind == kind
    ensures r.id.serial == env.nextSerial
    ensures r.env.nextSerial > env.nextSerial
    ensures r.env.parents == env.parents && r.env.log == env.log
  {
    Allocated(NodeId(kind, env.nextSerial), env.(nextSerial := env.nextSerial + 1))
  }

  /** Appends one event to the log. */
  function Emit(env: Env, e: Event): Env
  {
    env.(log := env.log + [e])
  }

  /**
   * Sets each listed child's back-link to `parent`; every other back-link is
   * untouched.
   */
  function LinkAll(parents: map<NodeId, NodeId>, children: seq<NodeId>, parent: NodeId): (r: map<NodeId, NodeId>)
    ensures r.Keys == parents.Keys + set c | c in children
    ensures forall c :: c in children ==> r[c] == parent
    ensures forall k :: k in parents && k !in children ==> r[k] == parents[k]
    decreases |children|
  {
    if children == [] then parents
    else LinkAll(parents[children[0] := parent], children[1..], parent)
  }

  /** Linking the same children to the same parent a second time changes nothing. */
  lemma LinkAllIdempotent(parents: map<NodeId, NodeId>, children: seq<NodeId>, parent: NodeId)
    ensures LinkAll(LinkAll(parents, children, parent), children, parent) == LinkAll(parents, children, parent)
  {
  }
}
