/**
 * The aggregate plugin of the demo role: it numbers the tasks it sees, starting from 1,
 * and announces each play's hosts. Colours are dropped.
 */
module CustomAggregate {
  import opened Output
  import opened Text
  import opened Objects

  /** `v2_playbook_on_play_start`: the two bright-green lines. */
  function PlayStartLines(hosts: string): seq<Line> {
    [Display(Normal, "And we're off!"), Display(Normal, "The hosts are: " + hosts)]
  }

  /** `v2_playbook_on_task_start` with the counter at `n`: the task number, then its action. */
  function TaskStartLines(n: nat, action: string): seq<Line> {
    [Display(Normal, "This is task " + NatToString(n) + "."), Display(Normal, "Action: " + action + ".")]
  }

  /** The events this plugin handles, with what each handler reads. */
  datatype Event = PlayStart(hosts: string) | TaskStart(action: string)

  /** One handler call with the counter at `n`: the new counter and the lines written. */
  function Step(n: nat, e: Event): (nat, seq<Line>) {
    match e
    case PlayStart(hosts) => (n, PlayStartLines(hosts))
    case TaskStart(action) => (n + 1, TaskStartLines(n, action))
  }

  /** A run of handler calls from counter `n`: the final counter and all lines, in order. */
  function Replay(n: nat, events: seq<Event>): (nat, seq<Line>) {
    if events == [] then (n, [])
    else
      var last := events[|events| - 1];
      var before := Replay(n, events[..|events| - 1]);
      var st := Step(before.0, last);
      (st.0, before.1 + st.1)
  }

  /** Number of task starts among `events`. */
  function TaskStarts(events: seq<Event>): nat {
    if events == [] then 0
    else TaskStarts(events[..|events| - 1]) + (if events[|events| - 1].TaskStart? then 1 else 0)
  }

  /** From a fresh plugin the counter is one more than the task starts seen; every call writes two lines. */
  lemma {:induction false} ReplayCounts(events: seq<Event>)
    ensures Replay(1, events).0 == TaskStarts(events) + 1
    ensures |Replay(1, events).1| == 2 * |events|
  {
    if events != [] {
      ReplayCounts(events[..|events| - 1]);
    }
  }

  /** What the call for event `j` wrote, with the counter at one more than the task starts before it. */
  lemma {:induction false} ReplayCallLines(events: seq<Event>, j: nat)
    requires j < |events|
    ensures |Replay(1, events).1| == 2 * |events|
    ensures Replay(1, events).1[2 * j..2 * j + 2] == Step(TaskStarts(events[..j]) + 1, events[j]).1
  {
    ReplayCounts(events);
    var front := events[..|events| - 1];
    ReplayCounts(front);
    var before := Replay(1, front).1;
    var st := Step(TaskStarts(front) + 1, events[|events| - 1]).1;
    assert Replay(1, events).1 == before + st;
    if j < |front| {
      ReplayCallLines(front, j);
      assert events[..j] == front[..j];
      LinesPrefix(before, st, 2 * j, 2 * j + 2);
    } else {
      assert events[..j] == front;
    }
  }

  /**
   * Every call wrote what its handler writes with the counter at one more than the task
   * starts before it: so the k-th task start printed `This is task k.`, and play starts
   * never move the counter.
   */
  lemma ReplayNumbersTasks(events: seq<Event>)
    ensures |Replay(1, events).1| == 2 * |events|
    ensures forall j :: 0 <= j < |events| ==>
      Replay(1, events).1[2 * j..2 * j + 2] == Step(TaskStarts(events[..j]) + 1, events[j]).1
  {
    ReplayCounts(events);
    forall j | 0 <= j < |events|
      ensures Replay(1, events).1[2 * j..2 * j + 2] == Step(TaskStarts(events[..j]) + 1, events[j]).1
    {
      ReplayCallLines(events, j);
    }
  }

  /** The opening line of the call for a task start carries the task's ordinal among the task starts so far. */
  lemma KthTaskNumbered(events: seq<Event>, j: nat)
    requires j < |events| && events[j].TaskStart?
    ensures |Replay(1, events).1| == 2 * |events|
    ensures Replay(1, events).1[2 * j] == Display(Normal, "This is task " + NatToString(TaskStarts(events[..j + 1])) + ".")
  {
    ReplayCallLines(events, j);
    var upto := events[..j + 1];
    assert upto[..j] == events[..j] && upto[j] == events[j];
    var k := TaskStarts(upto);
    assert k == TaskStarts(events[..j]) + 1;
    var call := Replay(1, events).1[2 * j..2 * j + 2];
    assert call == TaskStartLines(k, events[j].action);
    assert Replay(1, events).1[2 * j] == call[0];
  }

  lemma LinesPrefix(a: seq<Line>, b: seq<Line>, i: nat, j: nat)
    requires i <= j <= |a|
    ensures (a + b)[i..j] == a[i..j]
  {
    assert forall k :: 0 <= k < j - i ==> (a + b)[i..j][k] == a[i..j][k];
  }

  /** The line that opens the k-th task start, read back: it carries k and nothing else. */
  lemma TaskNumberReadsBack(m: nat, n: nat, a: string, b: string)
    requires TaskStartLines(m, a)[0] == TaskStartLines(n, b)[0]
    ensures m == n
  {
    var p := "This is task ";
    var sm := NatToString(m);
    var sn := NatToString(n);
    assert p + sm + "." == p + sn + ".";
    assert sm == (p + sm + ".")[|p|..|p| + |sm|];
    assert sn == (p + sn + ".")[|p|..|p| + |sn|];
    assert |sm| == |sn|;
    NatToStringInjective(m, n);
  }

  /** A `CallbackModule` of custom_aggregate.py: the task counter and the output it has written. */
  class CallbackModule {
    var taskCount: nat
    var out: seq<Line>

    /** `__init__`: the counter starts at 1. */
    constructor()
      ensures taskCount == 1 && out == []
    {
      taskCount := 1;
      out := [];
    }

    /** Announces the play and its hosts; the counter is left alone. */
    method OnPlayStart(play: Play)
      modifies this
      ensures taskCount == old(taskCount)
      ensures out == old(out) + PlayStartLines(play.hosts)
      ensures var st := Step(old(taskCount), PlayStart(play.hosts)); taskCount == st.0 && out == old(out) + st.1
    {
      out := out + [Display(Normal, "And we're off!")];
      out := out + [Display(Normal, "The hosts are: " + play.hosts)];
    }

    /** Prints the current task number and the action, then counts the task. */
    method OnTaskStart(task: Task, isConditional: bool)
      modifies this
      ensures taskCount == old(taskCount) + 1
      ensures out == old(out) + TaskStartLines(old(taskCount), task.action)
      ensures var st := Step(old(taskCount), TaskStart(task.action)); taskCount == st.0 && out == old(out) + st.1
    {
      out := out + [Display(Normal, "This is task " + NatToString(taskCount) + ".")];
      out := out + [Display(Normal, "Action: " + task.action + ".")];
      taskCount := taskCount + 1;
    }
  }
}
