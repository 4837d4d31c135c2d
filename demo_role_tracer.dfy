/**
 * The tracer plugin of the roles playbook (playbooks/07_roles): every handler is wrapped
 * by `trace_decorator`; two of them display a line, the others are empty.
 */
module DemoRoleTracer {
  import opened Output
  import opened Objects
  import opened Tracer

  /** `TRACE = True`: the flag's value as the module defines it. */
  const TRACE: bool := true

  /** The decorated methods of `CallbackModule`, with the arguments their bodies use. */
  datatype Handler =
    | Init
    | PlaybookStart
    | VarsPrompt
    | PlayStart
    | NoHostsMatched
    | TaskStart
    | RunnerStart
    | AsyncPoll
    | AsyncOk
    | AsyncFailed
    | FileDiff
    | RunnerOk
    | Unreachable
    | Failed
    | Skipped
    | Include
    | NoHostsRemaining
    | ItemOk
    | ItemFailed
    | ItemSkipped
    | Retry
    | Notify(hostName: string)
    | HandlerTaskStart
    | CleanupTaskStart
    | Stats

  /** The method's `__name__`, which `@wraps` keeps on the wrapper. */
  function Name(h: Handler): string {
    match h
    case Init => "__init__"
    case PlaybookStart => "v2_playbook_on_start"
    case VarsPrompt => "v2_playbook_on_vars_prompt"
    case PlayStart => "v2_playbook_on_play_start"
    case NoHostsMatched => "v2_playbook_on_no_hosts_matched"
    case TaskStart => "v2_playbook_on_task_start"
    case RunnerStart => "v2_runner_on_start"
    case AsyncPoll => "v2_runner_on_async_poll"
    case AsyncOk => "v2_runner_on_async_ok"
    case AsyncFailed => "v2_runner_on_async_failed"
    case FileDiff => "v2_on_file_diff"
    case RunnerOk => "v2_runner_on_ok"
    case Unreachable => "v2_runner_on_unreachable"
    case Failed => "v2_runner_on_failed"
    case Skipped => "v2_runner_on_skipped"
    case Include => "v2_playbook_on_include"
    case NoHostsRemaining => "v2_playbook_on_no_hosts_remaining"
    case ItemOk => "v2_runner_item_on_ok"
    case ItemFailed => "v2_runner_item_on_failed"
    case ItemSkipped => "v2_runner_item_on_skipped"
    case Retry => "v2_runner_retry"
    case Notify(_) => "v2_playbook_on_notify"
    case HandlerTaskStart => "v2_playbook_on_handler_task_start"
    case CleanupTaskStart => "v2_playbook_on_cleanup_task_start"
    case Stats => "v2_playbook_on_stats"
  }

  /** The undecorated body: a display for notify and handler start, nothing for the rest; all return None. */
  function Body(h: Handler): Traced<()> {
    match h
    case Notify(hostName) => Traced([NotifiedLine(hostName)], ())
    case HandlerTaskStart => Traced([HandlerStartedLine()], ())
    case _ => Traced([], ())
  }

  /** Calling the decorated handler with TRACE set to `trace`. */
  function Call(trace: bool, h: Handler): Traced<()> {
    Wrap(trace, Name(h), Body, h)
  }

  /** The output of the notify handler: the trace line when TRACE, then the notified host. */
  lemma NotifyOutput(trace: bool, hostName: string)
    ensures trace ==> Call(trace, Notify(hostName)).lines == [TraceLine("v2_playbook_on_notify"), NotifiedLine(hostName)]
    ensures !trace ==> Call(trace, Notify(hostName)).lines == [NotifiedLine(hostName)]
  {
    assert [TraceLine("v2_playbook_on_notify")] + [NotifiedLine(hostName)] ==
           [TraceLine("v2_playbook_on_notify"), NotifiedLine(hostName)];
  }

  /** The output of the handler-start handler: the trace line when TRACE, then `Handler started.` */
  lemma HandlerTaskStartOutput(trace: bool)
    ensures trace ==> Call(trace, HandlerTaskStart).lines == [TraceLine("v2_playbook_on_handler_task_start"), HandlerStartedLine()]
    ensures !trace ==> Call(trace, HandlerTaskStart).lines == [HandlerStartedLine()]
  {
    assert [TraceLine("v2_playbook_on_handler_task_start")] + [HandlerStartedLine()] ==
           [TraceLine("v2_playbook_on_handler_task_start"), HandlerStartedLine()];
  }

  /** Every other handler has a `pass` body: it writes its trace line when TRACE, and nothing else. */
  lemma EmptyHandlerOutput(trace: bool, h: Handler)
    requires !h.Notify? && !h.HandlerTaskStart?
    ensures Call(trace, h).lines == if trace then [TraceLine(Name(h))] else []
  {
    assert Body(h).lines == [];
  }

  /** Exactly one `print()` per call when TRACE is set, none when it is not; its text names the handler. */
  lemma OnePrintPerCall(trace: bool, h: Handler)
    ensures PrintCount(Call(trace, h).lines) == if trace then 1 else 0
    ensures trace ==> TracedName(Call(trace, h).lines[0]) == Some(Name(h))
  {
    WrapPrintsOnce(trace, Name(h), Body, h);
    assert PrintCount(Body(h).lines) == 0;
    TracedNameRoundTrip(Name(h));
  }

  /** As shipped, with `TRACE = True`: every call is traced once, under its own name. */
  lemma TracedAsShipped(h: Handler)
    ensures PrintCount(Call(TRACE, h).lines) == 1
    ensures |Call(TRACE, h).lines| > 0 && TracedName(Call(TRACE, h).lines[0]) == Some(Name(h))
  {
    OnePrintPerCall(TRACE, h);
  }

  /** Different methods print different trace lines. */
  lemma TraceIdentifiesMethod(a: Handler, b: Handler)
    requires Call(true, a).lines[0] == Call(true, b).lines[0]
    ensures Name(a) == Name(b)
  {
    TracedNameRoundTrip(Name(a));
    TracedNameRoundTrip(Name(b));
  }
}
