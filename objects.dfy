/**
 * The Ansible objects the callbacks receive, reduced to the attributes they read.
 * Values that come from helpers inherited from Ansible's CallbackBase
 * (host_label, _dump_results, _get_diff, _get_item_label, _run_is_verbose,
 * AggregateStats.summarize) are carried as given fields: the plugins use them
 * without looking inside.
 */
module Objects {

  datatype Option<T> = None | Some(value: T) {
    function GetOr(default: T): T {
      match this
      case Some(v) => v
      case None => default
    }
  }

  /** `task.loop`: None, or set to a value that is falsy (such as `[]`) or truthy. */
  datatype Loop = NoLoop | Loop(truthy: bool)

  datatype Task = Task(
    uuid: string,                   // the task's unique id, which keys the banner and prefix caches
    name: string,                   // the task's name as templated for this object
    action: string,                 // the module the task runs
    repr: string,                   // the task's printable form
    noLog: bool,                    // whether the task hides its arguments and results
    checkMode: bool,                // whether the task runs in check mode
    isInclude: bool,                // whether the task is an include task
    loop: Loop,                     // the task's loop setting, if any
    ignoreUnreachable: bool,        // whether unreachable hosts are ignored for this task
    args: seq<(string, string)>     // the task's arguments in order, each value rendered as text
  )

  datatype Play = Play(
    name: string,                   // the play's name
    checkMode: bool,                // whether the play runs in check mode
    strategy: string,               // the name of the play's strategy plugin
    hosts: string                   // the play's host pattern, rendered as text
  )

  datatype Playbook = Playbook(fileName: string)  // the playbook's file path

  /** One element of `result._result['results']`, as `v2_on_file_diff` reads it. */
  datatype SubResult = SubResult(
    hasDiff: bool,                  // whether the item carries a non-empty diff
    changed: bool,                  // whether the item changed anything
    diff: string                    // the item's diff as the inherited renderer prints it
  )

  datatype TaskResult = TaskResult(
    task: Task,                     // the result's own copy of the task
    hostName: string,               // the name of the host the result is for
    hostLabel: string,              // the host label, with the delegated host when there is one
    taskName: string,               // the task name the result carries
    changed: bool,                  // whether the result reports a change
    results: Option<seq<SubResult>>,  // the per-item results of a loop, when reported
    msg: Option<string>,            // the module's message, when reported
    diffPresent: bool,              // whether the result carries a non-empty diff
    renderedDiff: string,           // the diff as the inherited renderer prints it
    itemLabel: string,              // the loop item's label
    dump: string,                   // the whole result serialised as the inherited dumper prints it
    verbose: bool,                  // whether the result is to be shown in full
    verboseRetry: bool,             // the same, at the verbosity the retry report asks for
    retries: Option<int>,           // the number of retries allowed, when reported
    attempts: Option<int>,          // the number of attempts made, when reported
    jobId: Option<string>,          // the async job id, when reported
    asyncResult: Option<Option<string>>,  // the nested async result, when present, and the job id inside it
    started: Option<string>,        // when the async job started, as text
    finished: Option<string>        // whether the async job has finished, as text
  )

  datatype IncludedFile = IncludedFile(
    fileName: string,               // the path of the included file
    hostNames: seq<string>,         // the names of the hosts that include it, in order
    itemLabel: string               // the label of the loop item it was included for
  )

  /** What `AggregateStats.summarize(host)` returns. */
  datatype Summary = Summary(
    ok: nat, changed: nat, unreachable: nat, failures: nat,
    skipped: nat, rescued: nat, ignored: nat
  )

  datatype Stats = Stats(
    processed: set<string>,         // the hosts the run processed
    summarize: string -> Summary,   // each host's counters
    custom: map<string, string>     // the custom statistics, each value already serialised
  )

  /** One entry of `context.CLIARGS`. */
  datatype CliEntry = CliEntry(key: string, rendered: string, truthy: bool)

  datatype CliArgs = CliArgs(
    positional: seq<string>,        // the positional command-line arguments, empty when there are none
    entries: seq<CliEntry>,         // every option, in the order the options are stored
    check: bool                     // whether the run is a dry run (check mode)
  )
}
