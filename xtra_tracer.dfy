/**
 * The tracer plugin of the tracer role (xtra/roles/tracer_role): the same decorator and
 * handlers as the roles-playbook copy, except that it defines no cleanup-task handler.
 */
module XtraTracer {
  import opened Output
  import opened Objects
  import opened Tracer
  import DemoRoleTracer

  /** `TRACE = True`. */
  const TRACE: bool := true

  /** The decorated methods of this copy of `CallbackModule`: no `v2_playbook_on_cleanup_task_start`. */
  datatype Handler =
    | Init
    | PlaybookStart
    | VarsPrompt
    | PlayStart
    | NoHostsMatched
    | TaskStart
    | RunnerStart
    | AsyncPoll
    | AsyncOk
    | AsyncFailed
    | FileDiff
    | RunnerOk
    | Unreachable
    | Failed
    | Skipped
    | Include
    | NoHostsRemaining
    | ItemOk
    | ItemFailed
    | ItemSkipped
    | Retry
    | Notify(hostName: string)
    | HandlerTaskStart
    | Stats

  /** The method's `__name__`: the same names as the other copy. */
  function Name(h: Handler): string {
    DemoRoleTracer.Name(Counterpart(h))
  }

  /** The undecorated bodies, as in the other copy. */
  function Body(h: Handler): Traced<()> {
    match h
    case Notify(hostName) => Traced([NotifiedLine(hostName)], ())
    case HandlerTaskStart => Traced([HandlerStartedLine()], ())
    case _ => Traced([], ())
  }

  /** Calling the decorated handler with TRACE set to `trace`. */
  function Call(trace: bool, h: Handler): Traced<()> {
    Wrap(trace, Name(h), Body, h)
  }

  /** The same method in the roles-playbook copy. */
  function Counterpart(h: Handler): (d: DemoRoleTracer.Handler)
    ensures d != DemoRoleTracer.CleanupTaskStart
  {
    match h
    case Init => DemoRoleTracer.Init
    case PlaybookStart => DemoRoleTracer.PlaybookStart
    case VarsPrompt => DemoRoleTracer.VarsPrompt
    case PlayStart => DemoRoleTracer.PlayStart
    case NoHostsMatched => DemoRoleTracer.NoHostsMatched
    case TaskStart => DemoRoleTracer.TaskStart
    case RunnerStart => DemoRoleTracer.RunnerStart
    case AsyncPoll => DemoRoleTracer.AsyncPoll
    case AsyncOk => DemoRoleTracer.AsyncOk
    case AsyncFailed => DemoRoleTracer.AsyncFailed
    case FileDiff => DemoRoleTracer.FileDiff
    case RunnerOk => DemoRoleTracer.RunnerOk
    case Unreachable => DemoRoleTracer.Unreachable
    case Failed => DemoRoleTracer.Failed
    case Skipped => DemoRoleTracer.Skipped
    case Include => DemoRoleTracer.Include
    case NoHostsRemaining => DemoRoleTracer.NoHostsRemaining
    case ItemOk => DemoRoleTracer.ItemOk
    case ItemFailed => DemoRoleTracer.ItemFailed
    case ItemSkipped => DemoRoleTracer.ItemSkipped
    case Retry => DemoRoleTracer.Retry
    case Notify(hostName) => DemoRoleTracer.Notify(hostName)
    case HandlerTaskStart => DemoRoleTracer.HandlerTaskStart
    case Stats => DemoRoleTracer.Stats
  }

  /**
   * Every handler of this copy writes and returns exactly what the same-named handler of
   * the roles-playbook copy does, whatever TRACE is; so the notify, handler-start, empty-body
   * and one-print-per-call properties proved there hold here too.
   */
  lemma SameAsDemoRoleCopy(trace: bool, h: Handler)
    ensures Call(trace, h) == DemoRoleTracer.Call(trace, Counterpart(h))
  {
    var d := Counterpart(h);
    assert Body(h) == DemoRoleTracer.Body(d);
  }

  /** Exactly one `print()` per call when TRACE is set, none when it is not. */
  lemma OnePrintPerCall(trace: bool, h: Handler)
    ensures PrintCount(Call(trace, h).lines) == if trace then 1 else 0
  {
    SameAsDemoRoleCopy(trace, h);
    DemoRoleTracer.OnePrintPerCall(trace, Counterpart(h));
  }

  /** As shipped, with `TRACE = True`: every call is traced once, under its own name. */
  lemma TracedAsShipped(h: Handler)
    ensures PrintCount(Call(TRACE, h).lines) == 1
    ensures |Call(TRACE, h).lines| > 0 && TracedName(Call(TRACE, h).lines[0]) == Some(Name(h))
  {
    SameAsDemoRoleCopy(TRACE, h);
    DemoRoleTracer.TracedAsShipped(Counterpart(h));
  }

  /** No method of this copy is the cleanup-task handler. */
  lemma NoCleanupHandler(h: Handler)
    ensures Name(h) != "v2_playbook_on_cleanup_task_start"
  {
  }
}
