# Cached-children tree nodes of the analysis results view

This project models, in Dafny, the two tree nodes of the analysis-results tree
that carry real logic: the **hint node**, which wraps one issue found by an
analysis run, and the **results node**, which holds a configuration's results
(a single report node followed by the children the configuration node
produces). Each node keeps a `loading` guard, a cached list of children, a
display item, and sets back-links from its children to itself. The model is
functional: node states are immutable records, every operation is a pure
function from the old state to the new one, and whatever lives outside the
node is an explicit environment:

- **Identities** (`Tree.NodeId`) are a kind tag (`ResultsKind`, `ReportKind`,
  `HintKind`, `QuickfixesKind`, …) plus a serial handed out by `Tree.Alloc`; each `new` in the
  source that builds a node allocates one (display items get none), so two
  separately built nodes never share an identity.
- **Back-links** (`parentNode`) are the map `Env.parents` from child to parent.
- **Emissions** form the log `Env.log`: `ItemRefreshed` for a display item's
  own refresh, `ProviderRefresh` for the data provider's redraw request, and
  `NodeRefresh(origin, target)` for the base-class refresh with its optional
  target passed through.
- **Unseen collaborators** are parameters: the configuration node's
  `getChildNodes` is any function `Configuration -> seq<NodeId>`
  (`ResultsNodes.ChildSource`). The source passes the results node itself to
  `getChildNodes`; the model keys the call on the node's configuration
  instead, because a results node's identity and configuration never change
  during its life, so within one node the two determine each other. The
  configuration's `markIssueAsComplete`
  is insertion of the issue id into the configuration's completion ledger
  (`Domain.MarkIssueAsComplete`).
- **Thrown errors**: where the source would raise a `TypeError` part-way (the
  display item was never created; the configuration has no result summary),
  the operation returns the state reached at that point together with a
  `Fault`. The completion flag and the ledger are both updated before
  `setComplete` can throw, so the two never disagree, on either path.

Files: `wrappers.dfy` (`Option`, `Result`), `domain.dfy` (issues, summaries,
configurations), `tree.dfy` (identities, environment, the shared child cache
and its read side, parent linking), `hint_node.dfy`, `results_node.dfy`.

The two nodes treat their cache differently, and the model keeps that visible:
`ResultsNodes.CreateItem` clears the cache and rebuilds it as the report node
followed by the produced children, so a second call with the same
configuration and the same produced children leaves the node and the
back-links as they were and, when the configuration has a summary, logs one
more item refresh; without a summary both calls fault before the refresh and
log nothing (`ResultsNodes.CreateItemIdempotent`). `HintNodes.CreateItem` never clears:
on an issue with quickfixes it appends a freshly built Quickfixes node on every
call, so `k` calls add `k` children, and on an issue without quickfixes it adds
none (`HintNodes.RepeatedCreateItem`). So repeating item creation is harmless on
a results node and grows the children of a hint node. The results node's
`refresh` rebuilds only its own cache and then calls the base refresh; it does
not refresh its children.

## Model

| member | source | states |
|---|---|---|
| Tree.ReadSide | src/tree/hintNode.ts:36-45 | `Tree.GetChildren` (`getChildren` of both nodes) gives the display no children while loading and exactly the cached list otherwise; `Tree.HasMoreChildren` (`hasMoreChildren` of both nodes) holds iff the cached list is non-empty, so when not loading it holds iff something is shown |
| Tree.LinkAll | src/tree/resultsNode.ts:44 | after linking, every listed child's back-link names the parent, no other back-link changes, and the linked children are the only new keys |
| Tree.LinkAllIdempotent | src/tree/resultsNode.ts:71 | linking the same children to the same parent a second time leaves the back-links as they were |
| HintNodes.NewHintNode | src/tree/hintNode.ts:22-34 | a new hint node has a fresh identity, wraps the given issue, has no children, is not loading and has no display item |
| HintNodes.Label | src/tree/hintNode.ts:51-53 | the label is the title, then ` [rule-id: `, then the rule id, then `]`, with nothing else |
| HintNodes.LabelRoundTrip | src/tree/hintNode.ts:51-53 | under a given title, a string yields the issue's rule id back iff it is exactly that issue's label |
| HintNodes.CreateItem | src/tree/hintNode.ts:55-73 | loading ends; with quickfixes, exactly one new Quickfixes child is appended after the old ones, linked to this node, and the item is collapsed; without, children and links are unchanged; one item refresh is logged |
| HintNodes.CreateItemKeepsValid | src/tree/hintNode.ts:58-68 | item creation keeps the children distinct, all Quickfixes nodes, and all linked back to this node |
| HintNodes.RepeatedCreateItem | src/tree/hintNode.ts:55-70 | `k` successive item creations on an issue with quickfixes add exactly `k` children and keep the earlier children as a prefix; without quickfixes they add none |
| HintNodes.ReadsAfterCreateItem | src/tree/hintNode.ts:36-70 | after item creation the display sees the whole cache, and an issue with quickfixes shows children and offers to expand |
| HintNodes.Delete | src/tree/hintNode.ts:47-49 | deletion changes neither the node nor its environment |
| HintNodes.SetComplete | src/tree/hintNode.ts:83-88 | the issue is complete and its id is in the ledger on every path; nothing else about the issue, the node or the back-links changes; with a display item exactly one item refresh and one provider refresh for this node are logged, without one the call faults and logs nothing |
| HintNodes.SetCompleteSeenThroughIssue | src/tree/hintNode.ts:75-88 | after marking complete, `HintNodes.GetIssue` (`getIssue`) returns the same issue, now complete and in the ledger, and `HintNodes.GetReport` (`getReport`) returns the unchanged report; the label is unchanged too |
| HintNodes.SetCompleteTwice | src/tree/hintNode.ts:83-88 | marking complete a second time leaves issue and ledger as after the first; each successful call adds exactly one provider refresh |
| ResultsNodes.NewResultsNode | src/tree/resultsNode.ts:20-34 | a new results node and its one report node get fresh, distinct identities; the node starts with no children, no item and no guard |
| ResultsNodes.Label | src/tree/resultsNode.ts:53-55 | the label is `Analysis Results (` then the summary's timestamp then `)`; without a summary it faults |
| ResultsNodes.LabelRoundTrip | src/tree/resultsNode.ts:53-55 | a string yields the summary's timestamp back iff it is exactly the results label |
| ResultsNodes.CreateItem | src/tree/resultsNode.ts:36-47 | loading ends; the children are the report node followed by exactly the produced children, each linked here, with other links untouched; the item is refreshed with the timestamp, or the call faults when there is no summary |
| ResultsNodes.CreateItemIdempotent | src/tree/resultsNode.ts:37-44 | a second item creation with the same produced children reproduces the node and the back-links, with `1 + produced` children and no duplication |
| ResultsNodes.CreateItemNoDuplicates | src/tree/resultsNode.ts:41-43 | when the produced children are distinct and contain no report node, the children are distinct and the report node is the only, and first, Report child |
| ResultsNodes.ReadsAfterCreateItem | src/tree/resultsNode.ts:57-66 | after item creation the display sees the cache, whose first entry is the report node, and the expand affordance is always offered |
| ResultsNodes.Refresh | src/tree/resultsNode.ts:68-74 | the children are rebuilt to the report node followed by the produced children, all linked here; on success one item refresh and one base refresh carrying the given target are logged; faults when there is no item or no summary |
| ResultsNodes.RefreshMatchesCreateItem | src/tree/resultsNode.ts:68-71 | refresh builds the same children and back-links as item creation from the same state |
| ResultsNodes.RefreshIdempotent | src/tree/resultsNode.ts:68-74 | a second refresh reproduces the node, back-links and fault; each successful call emits exactly one more base refresh, and a call that faults emits nothing |
| ResultsNodes.Delete | src/tree/resultsNode.ts:49-51 | deletion changes neither the node nor its environment |
| ResultsNodes.ScenarioTwoIssues | src/tree/resultsNode.ts:36-55 | for configuration C1 with timestamp T1 producing two issue nodes, item creation yields the report node then the two issue nodes, and the label is `Analysis Results (T1)` |

## Left out

- The `loading` guard is never set to true anywhere in these two files; the model keeps the flag and covers both branches of the read side, but no modelled operation turns it on.
- The icon choice in `ResultsNode.createItem` depends on a process environment variable and only decorates the display item; it is not modelled.
- Promise wrapping of `getChildren` and `delete` is modelled as plain synchronous results.
- The display items' own `refresh` (hint item and results item) is not part of this model beyond the logged `ItemRefreshed` event and, for the results item, the timestamp it is refreshed with.
- The base-class `refresh`, the data provider's `refresh`, the configuration node's `getChildNodes` and the configuration's `markIssueAsComplete` are not part of this model; they appear as logged events or as parameters, as described above.
- The hint node's `quickfixes` field is copied from the issue in the constructor and never read by the modelled operations (item creation reads the issue's own list), so it is not kept.
- Tree.GetChildren: returns a value, not the live array. The hint node's `getChildren` hands out its own `children` array, and a later `createItem` grows that same array with `push`, so a list handed out earlier also grows; the results node assigns a new array on every rebuild, so lists it handed out earlier never change. Sequences have no identity, so this difference is not modelled.
- HintNodes.SetComplete: sets the completion flag on the node's copy of the issue only. In the source the issue object is shared by reference with the hint display item and with the Quickfixes nodes built for it, which see the flag change too; the model keeps no such sharing.
- The issue location fields (file, line, column, length) are not read by these nodes and are not modelled.
- The extension's activation, command registration, file opening, the save-watcher that reloads the model service, and the display-row adapters for configurations and folders are host glue and are not modelled.
- The model service (load, save, reload, metadata) is not part of this model.
