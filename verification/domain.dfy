/**
 * The slice of the analysis domain model that the tree nodes read and write:
 * issues ("hints") with their quickfixes, a configuration's result summary,
 * and the configuration's issue-completion ledger.
 */
module Domain {
  import opened Wrappers

  /** A proposed remediation; read-only from the tree's point of view. */
  datatype Quickfix = Quickfix(id: string)

  /** One finding of an analysis run. */
  datatype Hint = Hint(
    id: string,
    title: string,
    ruleId: string,
    report: string,
    complete: bool,
    quickfixes: seq<Quickfix>)

  /** Aggregate metadata of a run, keyed by its execution timestamp. */
  datatype Summary = Summary(executedTimestamp: string)

  /**
   * A named analysis configuration. `summary` is absent until a run has
   * produced results; `completed` is the ledger of issue ids that were
   * marked complete.
   */
  datatype Configuration = Configuration(
    name: string,
    summary: Option<Summary>,
    completed: set<string>)

  /**
   * The configuration's own completion bookkeeping, whose implementation is
   * not part of this model: it is taken to record the issue's id in the ledger
   * and to change nothing else, so marking an issue already in the ledger
   * leaves the configuration as it was.
   */
  function MarkIssueAsComplete(config: Configuration, issue: Hint): (r: Configuration)
    ensures issue.id in r.completed
    ensures config.completed <= r.completed
    ensures forall id :: id in r.completed && id != issue.id ==> id in config.completed
    ensures issue.id in config.completed ==> r == config
    ensures r.name == config.name && r.summary == config.summary
  {
    config.(completed := config.completed + {issue.id})
  }
}
