/**
 * The tree node wrapping one issue ("hint"). Its children are Quickfixes
 * nodes; it can mark its issue complete.
 */
module HintNodes {
  import opened Wrappers
  import opened Domain
  import opened Tree

  /** `Unset` is whatever state the display item's own constructor picks. */
  datatype Collapsible = Unset | Collapsed

  /** The display item of a hint node, as far as this node sets it. */
  datatype HintItem = HintItem(collapsible: Collapsible)

  /**
   * The state of one hint node. `treeItem` is the display item inherited from
   * the node base class, built by `CreateItem` and absent before; the class's
   * own `item` field is never assigned by this node and is not modelled.
   */
  datatype HintNode = HintNode(self: NodeId, hint: Hint, cache: ChildCache, treeItem: Option<HintItem>)

  /** A node together with the environment an operation left behind. */
  datatype Step = Step(node: HintNode, env: Env)

  /** The outcome of `SetComplete`; `fault` is set when the source would throw. */
  datatype Completed = Completed(node: HintNode, config: Configuration, env: Env, fault: Option<Fault>)

  /**
   * The node is consistent with its environment: its identity is allocated,
   * and its children are distinct, allocated Quickfixes nodes whose
   * back-links name this node.
   */
  ghost predicate Valid(n: HintNode, env: Env)
  {
    && n.self.kind == HintKind
    && n.self.serial < env.nextSerial
    && Distinct(n.cache.children)
    && forall i :: 0 <= i < |n.cache.children| ==>
         var c := n.cache.children[i];
         && c.kind == QuickfixesKind
         && c.serial < env.nextSerial
         && c in env.parents && env.parents[c] == n.self
  }

  /** The constructor: a fresh identity, no children, no display item yet. */
  function NewHintNode(hint: Hint, env: Env): (r: Step)
    ensures r.node.self.kind == HintKind && r.node.self.serial == env.nextSerial
    ensures r.node.hint == hint
    ensures r.node.cache == ChildCache(false, []) && r.node.treeItem == None
    ensures r.env.parents == env.parents && r.env.log == env.log
    ensures Valid(r.node, r.env)
  {
    var a := Alloc(env, HintKind);
    Step(HintNode(a.id, hint, ChildCache(false, []), None), a.env)
  }

  /** The text shown for a hint: its title followed by its rule id. */
  function Label(hint: Hint): (s: string)
    ensures |s| == |hint.title| + |hint.ruleId| + 12
    ensures s[..|hint.title|] == hint.title
    ensures s[|hint.title|..|hint.title| + 11] == " [rule-id: "
    ensures s[|hint.title| + 11..|s| - 1] == hint.ruleId
    ensures s[|s| - 1] == ']'
  {
    hint.title + " [rule-id: " + hint.ruleId + "]"
  }

  /** Recovers the rule id from a label, given the title it starts with. */
  function RuleIdFromLabel(s: string, title: string): Option<string>
  {
    if |s| >= |title| + 12 && s[..|title|] == title
       && s[|title|..|title| + 11] == " [rule-id: " && s[|s| - 1] == ']'
    then Some(s[|title| + 11..|s| - 1])
    else None
  }

  /**
   * The label format is exactly `title [rule-id: ruleId]`: a string parses
   * back to a rule id under a title iff it is the label of a hint with that
   * title and rule id.
   */
  lemma LabelRoundTrip(s: string, hint: Hint)
    ensures RuleIdFromLabel(Label(hint), hint.title) == Some(hint.ruleId)
    ensures RuleIdFromLabel(s, hint.title) == Some(hint.ruleId) <==> s == Label(hint)
  {
  }

  /**
   * Builds the display item and, when the issue has quickfixes, appends one
   * freshly built Quickfixes child linked back to this node. The cache is
   * never cleared.
   */
  function CreateItem(n: HintNode, env: Env): (r: Step)
    ensures r.node.self == n.self && r.node.hint == n.hint
    ensures !r.node.cache.loading
    ensures r.env.log == env.log + [ItemRefreshed(n.self)]
    ensures |n.hint.quickfixes| > 0 ==>
      var q := NodeId(QuickfixesKind, env.nextSerial);
      && r.node.cache.children == n.cache.children + [q]
      && r.env.parents == env.parents[q := n.self]
      && r.node.treeItem == Some(HintItem(Collapsed))
      && r.env.nextSerial > env.nextSerial
    ensures |n.hint.quickfixes| == 0 ==>
      && r.node.cache.children == n.cache.children
      && r.env.parents == env.parents
      && r.node.treeItem == Some(HintItem(Unset))
      && r.env.nextSerial == env.nextSerial
  {
    if |n.hint.quickfixes| > 0 then
      var a := Alloc(env, QuickfixesKind);
      var node := n.(cache := ChildCache(false, n.cache.children + [a.id]),
                     treeItem := Some(HintItem(Collapsed)));
      Step(node, Emit(a.env.(parents := a.env.parents[a.id := n.self]), ItemRefreshed(n.self)))
    else
      Step(n.(cache := ChildCache(false, n.cache.children), treeItem := Some(HintItem(Unset))),
              Emit(env, ItemRefreshed(n.self)))
  }

  /** `CreateItem` keeps the node consistent with its environment. */
  lemma CreateItemKeepsValid(n: HintNode, env: Env)
    requires Valid(n, env)
    ensures Valid(CreateItem(n, env).node, CreateItem(n, env).env)
  {
  }

  /** `CreateItem` applied `k` times in a row. */
  function CreateItemTimes(n: HintNode, env: Env, k: nat): Step
    decreases k
  {
    if k == 0 then Step(n, env)
    else
      var r := CreateItem(n, env);
      CreateItemTimes(r.node, r.env, k - 1)
  }

  /**
   * Because `CreateItem` appends and never clears, `k` calls on an issue with
   * quickfixes add exactly `k` children and keep the earlier ones as a prefix;
   * on an issue without quickfixes they change no child. Consistency with the
   * environment survives all of them.
   */
  lemma {:induction false} RepeatedCreateItem(n: HintNode, env: Env, k: nat)
    requires Valid(n, env)
    ensures var r := CreateItemTimes(n, env, k);
      && r.node.hint == n.hint
      && Valid(r.node, r.env)
      && n.cache.children <= r.node.cache.children
      && (|n.hint.quickfixes| > 0 ==> |r.node.cache.children| == |n.cache.children| + k)
      && (|n.hint.quickfixes| == 0 ==> r.node.cache.children == n.cache.children)
    decreases k
  {
    if k > 0 {
      var r1 := CreateItem(n, env);
      CreateItemKeepsValid(n, env);
      RepeatedCreateItem(r1.node, r1.env, k - 1);
    }
  }

  /** After `CreateItem` on an issue with quickfixes the node shows them and offers to expand. */
  lemma ReadsAfterCreateItem(n: HintNode, env: Env)
    ensures var r := CreateItem(n, env);
      && GetChildren(r.node.cache) == r.node.cache.children
      && (|n.hint.quickfixes| > 0 ==> HasMoreChildren(r.node.cache) && GetChildren(r.node.cache) != [])
      && (HasMoreChildren(r.node.cache) <==> |n.hint.quickfixes| > 0 || n.cache.children != [])
  {
  }

  /** The issue this node wraps. */
  function GetIssue(n: HintNode): Hint
  {
    n.hint
  }

  /** The free-text report of the wrapped issue. */
  function GetReport(n: HintNode): string
  {
    n.hint.report
  }

  /** Releases nothing: the node and its environment are returned as they were. */
  function Delete(n: HintNode, env: Env): (r: Step)
    ensures r.node == n && r.env == env
  {
    Step(n, env)
  }

  /**
   * Marks the wrapped issue complete and records it in the configuration's
   * ledger, then refreshes the display item and asks the data provider to
   * redraw this node. Without a display item the refresh throws after both
   * completion updates have happened.
   */
  function SetComplete(n: HintNode, config: Configuration, env: Env): (r: Completed)
    ensures r.node.hint.complete && r.node.hint.id in r.config.completed
    ensures r.node.hint == n.hint.(complete := true)
    ensures r.config.completed == config.completed + {n.hint.id}
    ensures r.config.name == config.name && r.config.summary == config.summary
    ensures r.node.self == n.self && r.node.cache == n.cache && r.node.treeItem == n.treeItem
    ensures r.env.parents == env.parents && r.env.nextSerial == env.nextSerial
    ensures r.fault == None <==> n.treeItem.Some?
    ensures r.fault == None ==> r.env.log == env.log + [ItemRefreshed(n.self), ProviderRefresh(n.self)]
    ensures r.fault != None ==> r.fault == Some(NoTreeItem) && r.env.log == env.log
  {
    var hint := n.hint.(complete := true);
    var config' := MarkIssueAsComplete(config, hint);
    var node := n.(hint := hint);
    if n.treeItem.None? then Completed(node, config', env, Some(NoTreeItem))
    else Completed(node, config', Emit(Emit(env, ItemRefreshed(n.self)), ProviderRefresh(n.self)), None)
  }

  /**
   * What `GetIssue` and `GetReport` observe after `SetComplete`: the same
   * issue, now complete and in the ledger, with its report unchanged.
   */
  lemma SetCompleteSeenThroughIssue(n: HintNode, config: Configuration, env: Env)
    ensures var r := SetComplete(n, config, env);
      && GetIssue(r.node).complete
      && GetIssue(r.node).id == GetIssue(n).id
      && GetIssue(r.node).id in r.config.completed
      && GetReport(r.node) == GetReport(n)
      && Label(GetIssue(r.node)) == Label(GetIssue(n))
  {
  }

  /**
   * Marking complete twice leaves the same issue and ledger as marking once;
   * each successful call emits exactly one provider refresh for this node.
   */
  lemma SetCompleteTwice(n: HintNode, config: Configuration, env: Env)
    ensures var r1 := SetComplete(n, config, env);
      var r2 := SetComplete(r1.node, r1.config, r1.env);
      && r2.node == r1.node
      && r2.config == r1.config
      && r2.fault == r1.fault
      && (r1.fault == None ==>
            r2.env.log == env.log + [ItemRefreshed(n.self), ProviderRefresh(n.self),
                                     ItemRefreshed(n.self), ProviderRefresh(n.self)])
  {
  }
}
