/**
 * The tree node holding a configuration's analysis results. Its children are
 * the single report node built with it, followed by whatever the owning
 * configuration node produces; the list is rebuilt from scratch on every
 * `CreateItem` and `Refresh`.
 */
module ResultsNodes {
  import opened Wrappers
  import opened Domain
  import opened Tree

  /** The display item; `shown` is the timestamp it was last refreshed with. */
  datatype ResultsItem = ResultsItem(shown: Option<string>)

  /**
   * The state of one results node. `treeItem` is the display item inherited
   * from the node base class, built by `CreateItem` and absent before.
   */
  datatype ResultsNode = ResultsNode(self: NodeId, reportNode: NodeId, cache: ChildCache, treeItem: Option<ResultsItem>)

  /** A node, the environment after an operation, and the fault it stopped at, if any. */
  datatype Step = Step(node: ResultsNode, env: Env, fault: Option<Fault>)

  /**
   * The children the owning configuration node produces for a results node
   * (its `getChildNodes`), whose implementation is not part of this model:
   * any function of the configuration.
   */
  type ChildSource = Configuration -> seq<NodeId>

  /** The identities have the kinds their constructor gave them. */
  predicate WellFormed(n: ResultsNode)
  {
    n.self.kind == ResultsKind && n.reportNode.kind == ReportKind && n.self != n.reportNode
  }

  /** The constructor: a fresh identity and one fresh report node, kept for life. */
  function NewResultsNode(env: Env): (r: Step)
    ensures WellFormed(r.node)
    ensures r.node.self.serial >= env.nextSerial && r.node.reportNode.serial >= env.nextSerial
    ensures r.env.nextSerial > r.node.self.serial && r.env.nextSerial > r.node.reportNode.serial
    ensures r.node.cache == ChildCache(false, []) && r.node.treeItem == None
    ensures r.env.parents == env.parents && r.env.log == env.log && r.fault == None
  {
    var a := Alloc(env, ResultsKind);
    var b := Alloc(a.env, ReportKind);
    Step(ResultsNode(a.id, b.id, ChildCache(false, []), None), b.env, None)
  }

  /** The text shown for the results of a configuration, or the fault the source throws. */
  function Label(config: Configuration): (r: Result<string, Fault>)
    ensures r.Failure? <==> config.summary.None?
    ensures r.Failure? ==> r.error == NoSummary
    ensures r.Success? ==>
      var t := config.summary.value.executedTimestamp;
      && |r.value| == |t| + 19
      && r.value[..18] == "Analysis Results ("
      && r.value[18..|r.value| - 1] == t
      && r.value[|r.value| - 1] == ')'
  {
    match config.summary
    case None => Failure(NoSummary)
    case Some(s) => Success("Analysis Results (" + s.executedTimestamp + ")")
  }

  /** Recovers the timestamp from a results label. */
  function TimestampFromLabel(s: string): Option<string>
  {
    if |s| >= 19 && s[..18] == "Analysis Results (" && s[|s| - 1] == ')'
    then Some(s[18..|s| - 1])
    else None
  }

  /**
   * The label is exactly `Analysis Results (timestamp)`: a string parses back
   * to the summary's timestamp iff it is the label.
   */
  lemma LabelRoundTrip(s: string, config: Configuration)
    requires config.summary.Some?
    ensures TimestampFromLabel(Label(config).value) == Some(config.summary.value.executedTimestamp)
    ensures TimestampFromLabel(s) == Some(config.summary.value.executedTimestamp) <==> s == Label(config).value
  {
  }

  /** Replaces the cache with the report node followed by the produced children, and links them all here. */
  function Rebuild(n: ResultsNode, config: Configuration, childNodes: ChildSource, env: Env, loading: bool): Step
  {
    var children := [n.reportNode] + childNodes(config);
    Step(n.(cache := ChildCache(loading, children)),
         env.(parents := LinkAll(env.parents, children, n.self)),
         None)
  }

  /**
   * Clears the cache, builds a new display item, and fills the cache with the
   * report node followed by the produced children, all linked back here; then
   * refreshes the item with the summary's timestamp, which throws when the
   * configuration has no summary.
   */
  function CreateItem(n: ResultsNode, config: Configuration, childNodes: ChildSource, env: Env): (r: Step)
    ensures r.node.self == n.self && r.node.reportNode == n.reportNode
    ensures !r.node.cache.loading
    ensures var cs := r.node.cache.children;
      && |cs| == 1 + |childNodes(config)|
      && cs[0] == n.reportNode
      && cs[1..] == childNodes(config)
    ensures forall c :: c in r.node.cache.children ==> c in r.env.parents && r.env.parents[c] == n.self
    ensures forall k :: k in env.parents && k !in r.node.cache.children ==> k in r.env.parents && r.env.parents[k] == env.parents[k]
    ensures r.env.parents.Keys == env.parents.Keys + set c | c in r.node.cache.children
    ensures r.env.nextSerial == env.nextSerial
    ensures r.fault == None <==> config.summary.Some?
    ensures r.fault == None ==>
      && r.node.treeItem == Some(ResultsItem(Some(config.summary.value.executedTimestamp)))
      && r.env.log == env.log + [ItemRefreshed(n.self)]
    ensures r.fault != None ==>
      && r.fault == Some(NoSummary)
      && r.node.treeItem == Some(ResultsItem(None))
      && r.env.log == env.log
  {
    var cleared := n.(cache := n.cache.(children := []), treeItem := Some(ResultsItem(None)));
    var built := Rebuild(cleared, config, childNodes, env, false);
    match config.summary
    case None => built.(fault := Some(NoSummary))
    case Some(s) =>
      Step(built.node.(treeItem := Some(ResultsItem(Some(s.executedTimestamp)))),
           Emit(built.env, ItemRefreshed(n.self)),
           None)
  }

  /**
   * Rebuilds the cache exactly as `CreateItem` does (leaving the guard as it
   * is), refreshes the display item with the summary's timestamp, and emits
   * the base refresh with the optional target passed through. It throws, after
   * the rebuild, when there is no display item or no summary.
   */
  function Refresh(n: ResultsNode, config: Configuration, childNodes: ChildSource,
                   target: Option<NodeId>, env: Env): (r: Step)
    ensures r.node.self == n.self && r.node.reportNode == n.reportNode
    ensures r.node.cache.loading == n.cache.loading
    ensures var cs := r.node.cache.children;
      && |cs| == 1 + |childNodes(config)|
      && cs[0] == n.reportNode
      && cs[1..] == childNodes(config)
    ensures forall c :: c in r.node.cache.children ==> c in r.env.parents && r.env.parents[c] == n.self
    ensures forall k :: k in env.parents && k !in r.node.cache.children ==> k in r.env.parents && r.env.parents[k] == env.parents[k]
    ensures r.env.parents.Keys == env.parents.Keys + set c | c in r.node.cache.children
    ensures r.env.nextSerial == env.nextSerial
    ensures r.fault == None <==> n.treeItem.Some? && config.summary.Some?
    ensures n.treeItem.None? ==> r.fault == Some(NoTreeItem)
    ensures n.treeItem.Some? && config.summary.None? ==> r.fault == Some(NoSummary)
    ensures r.fault == None ==>
      && r.node.treeItem == Some(ResultsItem(Some(config.summary.value.executedTimestamp)))
      && r.env.log == env.log + [ItemRefreshed(n.self), NodeRefresh(n.self, target)]
    ensures r.fault != None ==> r.node.treeItem == n.treeItem && r.env.log == env.log
  {
    var built := Rebuild(n, config, childNodes, env, n.cache.loading);
    if n.treeItem.None? then built.(fault := Some(NoTreeItem))
    else match config.summary
      case None => built.(fault := Some(NoSummary))
      case Some(s) =>
        Step(built.node.(treeItem := Some(ResultsItem(Some(s.executedTimestamp)))),
             Emit(Emit(built.env, ItemRefreshed(n.self)), NodeRefresh(n.self, target)),
             None)
  }

  /** Releases nothing: the node and its environment are returned as they were. */
  function Delete(n: ResultsNode, env: Env): (r: Step)
    ensures r.node == n && r.env == env && r.fault == None
  {
    Step(n, env, None)
  }

  /**
   * After `CreateItem` the guard is off, so the display sees exactly the
   * cache, and the expand affordance is always offered because the report
   * node is always present.
   */
  lemma ReadsAfterCreateItem(n: ResultsNode, config: Configuration, childNodes: ChildSource, env: Env)
    ensures var r := CreateItem(n, config, childNodes, env);
      && GetChildren(r.node.cache) == r.node.cache.children
      && GetChildren(r.node.cache)[0] == n.reportNode
      && HasMoreChildren(r.node.cache)
  {
  }

  /**
   * `CreateItem` discards the previous cache: a second call with the same
   * produced children leaves the node and the back-links exactly as the first
   * call did, with `1 + |produced|` children; when the configuration has a
   * summary it logs one more item refresh.
   */
  lemma CreateItemIdempotent(n: ResultsNode, config: Configuration, childNodes: ChildSource, env: Env)
    ensures var r1 := CreateItem(n, config, childNodes, env);
      var r2 := CreateItem(r1.node, config, childNodes, r1.env);
      && r2.node == r1.node
      && |r2.node.cache.children| == 1 + |childNodes(config)|
      && r2.env.parents == r1.env.parents
      && r2.fault == r1.fault
      && (r1.fault == None ==> r2.env.log == r1.env.log + [ItemRefreshed(n.self)])
  {
  }

  /**
   * No child occurs twice and the report node is the only Report-kind child,
   * provided the produced children are themselves distinct and contain no
   * report node.
   */
  lemma CreateItemNoDuplicates(n: ResultsNode, config: Configuration, childNodes: ChildSource, env: Env)
    requires WellFormed(n)
    requires Distinct(childNodes(config))
    requires forall c :: c in childNodes(config) ==> c.kind != ReportKind
    ensures var cs := CreateItem(n, config, childNodes, env).node.cache.children;
      && Distinct(cs)
      && cs[0].kind == ReportKind
      && forall i :: 0 < i < |cs| ==> cs[i].kind != ReportKind
  {
  }

  /** `Refresh` builds the same children and back-links as `CreateItem` would from the same state. */
  lemma RefreshMatchesCreateItem(n: ResultsNode, config: Configuration, childNodes: ChildSource,
                                 target: Option<NodeId>, env: Env)
    ensures var a := Refresh(n, config, childNodes, target, env);
      var b := CreateItem(n, config, childNodes, env);
      && a.node.cache.children == b.node.cache.children
      && a.env.parents == b.env.parents
  {
  }

  /**
   * With no change to the configuration in between, a second `Refresh`
   * reproduces the node (label source, item, children) and back-links of the
   * first, and each successful call emits exactly one base refresh.
   */
  lemma RefreshIdempotent(n: ResultsNode, config: Configuration, childNodes: ChildSource,
                          target: Option<NodeId>, env: Env)
    ensures var r1 := Refresh(n, config, childNodes, target, env);
      var r2 := Refresh(r1.node, config, childNodes, target, r1.env);
      && r2.node == r1.node
      && r2.env.parents == r1.env.parents
      && r2.fault == r1.fault
      && (r1.fault == None ==> r2.env.log == r1.env.log + [ItemRefreshed(n.self), NodeRefresh(n.self, target)])
  {
  }

  /**
   * A configuration "C1" whose summary has timestamp "T1" and whose
   * configuration node produces two issue nodes: a new results node's
   * `CreateItem` yields the report node followed by the two issue nodes, and
   * the label is `Analysis Results (T1)`.
   */
  lemma ScenarioTwoIssues(env: Env, h1: NodeId, h2: NodeId)
    requires h1.kind == HintKind && h2.kind == HintKind && h1 != h2
    ensures var config := Configuration("C1", Some(Summary("T1")), {});
      var made := NewResultsNode(env);
      var r := CreateItem(made.node, config, (c: Configuration) => [h1, h2], made.env);
      && r.fault == None
      && r.node.cache.children == [made.node.reportNode, h1, h2]
      && Label(config) == Success("Analysis Results (T1)")
  {
    var config := Configuration("C1", Some(Summary("T1")), {});
    var made := NewResultsNode(env);
    var produce := (c: Configuration) => [h1, h2];
    var r := CreateItem(made.node, config, produce, made.env);
    assert produce(config) == [h1, h2];
    assert r.node.cache.children == [made.node.reportNode] + [h1, h2];
    assert "Analysis Results (" + "T1" + ")" == "Analysis Results (T1)";
  }
}
