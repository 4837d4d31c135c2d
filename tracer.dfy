/**
 * `trace_decorator`, shared by both tracer plugins: the wrapped callable runs unchanged,
 * preceded by one `print()` of its name when the module's TRACE flag is set at call time.
 */
module Tracer {
  import opened Output
  import opened Objects

  /** The ANSI bright-cyan opening and the reset code around a trace line. */
  const TraceOpen: string := "\U{1b}[1;36m>>> Called "
  const TraceClose: string := "...\U{1b}[0m"

  /** The line `wrapper` prints before calling a function whose `__name__` is `name`. */
  function TraceLine(name: string): Line {
    Print(TraceOpen + name + TraceClose)
  }

  /** Recovers the name from a printed trace line; None for any other line. */
  function TracedName(l: Line): (r: Option<string>)
    ensures r.Some? ==> l == TraceLine(r.value)
  {
    if l.Print? && |TraceOpen| + |TraceClose| <= |l.text|
       && l.text[..|TraceOpen|] == TraceOpen && l.text[|l.text| - |TraceClose|..] == TraceClose
    then
      var name := l.text[|TraceOpen|..|l.text| - |TraceClose|];
      assert l.text == TraceOpen + name + TraceClose;
      Some(name)
    else None
  }

  /** The name can always be read back off a trace line, so distinct calls trace distinctly. */
  lemma TracedNameRoundTrip(name: string)
    ensures TracedName(TraceLine(name)) == Some(name)
  {
    var t := TraceOpen + name + TraceClose;
    assert t[..|TraceOpen|] == TraceOpen;
    assert t[|t| - |TraceClose|..] == TraceClose;
    assert t[|TraceOpen|..|t| - |TraceClose|] == name;
  }

  /** A call through the decorator: what it wrote, and what it returned. */
  datatype Traced<R> = Traced(lines: seq<Line>, result: R)

  /**
   * `trace_decorator(f)(*args)` with TRACE read as `trace`: the trace line iff `trace`,
   * then whatever `f` writes; `f` gets `args` as they are and its result is returned as it is.
   */
  function Wrap<A, R>(trace: bool, name: string, f: A -> Traced<R>, args: A): (t: Traced<R>)
    ensures t.result == f(args).result
    ensures trace ==> |t.lines| == |f(args).lines| + 1 && t.lines[0] == TraceLine(name) && t.lines[1..] == f(args).lines
    ensures !trace ==> t.lines == f(args).lines
  {
    var body := f(args);
    Traced((if trace then [TraceLine(name)] else []) + body.lines, body.result)
  }

  /** Number of `print()` lines among `lines`. */
  function PrintCount(lines: seq<Line>): (n: nat)
    ensures n <= |lines|
  {
    if lines == [] then 0 else (if lines[0].Print? then 1 else 0) + PrintCount(lines[1..])
  }

  lemma {:induction false} PrintCountConcat(a: seq<Line>, b: seq<Line>)
    ensures PrintCount(a + b) == PrintCount(a) + PrintCount(b)
  {
    if a == [] {
      assert a + b == b;
    } else {
      assert (a + b)[1..] == a[1..] + b;
      PrintCountConcat(a[1..], b);
    }
  }

  /** The decorator adds exactly one printed line when TRACE is set and none otherwise. */
  lemma WrapPrintsOnce<A, R>(trace: bool, name: string, f: A -> Traced<R>, args: A)
    ensures PrintCount(Wrap(trace, name, f, args).lines) == PrintCount(f(args).lines) + (if trace then 1 else 0)
  {
    var pre: seq<Line> := if trace then [TraceLine(name)] else [];
    PrintCountConcat(pre, f(args).lines);
    assert Wrap(trace, name, f, args).lines == pre + f(args).lines;
  }

  /**
   * Whatever TRACE says, the decorated call returns the body's result, its output ends
   * with the body's whole output, and every line it adds in front is a `print()`.
   */
  lemma WrapTransparent<A, R>(trace: bool, name: string, f: A -> Traced<R>, args: A)
    ensures var t := Wrap(trace, name, f, args);
      && t.result == f(args).result
      && |f(args).lines| <= |t.lines|
      && t.lines[|t.lines| - |f(args).lines|..] == f(args).lines
      && |t.lines| - |f(args).lines| == PrintCount(t.lines) - PrintCount(f(args).lines)
  {
    WrapPrintsOnce(trace, name, f, args);
  }

  /** Wrapping when TRACE is unset is the identity on every call. */
  lemma WrapUntraced<A, R>(name: string, f: A -> Traced<R>, args: A)
    ensures Wrap(false, name, f, args) == f(args)
  {
  }

  // The two handler bodies of the tracer plugins that write something (colour dropped)

  /** `v2_playbook_on_notify`: `Handler notified for {host.name}.` */
  function NotifiedLine(hostName: string): Line {
    Display(Normal, "Handler notified for " + hostName + ".")
  }

  /** `v2_playbook_on_handler_task_start`: `Handler started.` */
  function HandlerStartedLine(): Line {
    Display(Normal, "Handler started.")
  }
}
