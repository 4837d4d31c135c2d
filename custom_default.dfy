/**
 * The customised default stdout callback as an object: the plugin's fields, and one
 * method per handler, each proved to do exactly what CustomDefaultSpec says.
 */
module CustomDefault {
  import opened Output
  import opened Text
  import opened Objects
  import opened CustomDefaultSpec
  import Sorting

  /**
   * What `_task_start(task, prefix)` does, from state `s0` with output `before` to state
   * `s1` with output `out1`: in DEV_MODE a missing or blank prefix ends the run at once;
   * otherwise it goes on as `StartRecorded`.
   */
  predicate TaskStarted(cfg: Config, s0: RenderState, before: seq<Line>, s1: RenderState, out1: seq<Line>,
                        task: Task, prefix: Option<string>, status: Status)
  {
    var trace := before + DevTrace(cfg, "_task_start");
    if cfg.devMode && PrefixCheck(prefix).Exit? then
      status == Exited(1) && s1 == s0 && out1 == trace + PrefixCheck(prefix).lines
    else
      StartRecorded(cfg, s0, trace, s1, out1, task, prefix, status)
  }

  /**
   * The rest of `_task_start` once the prefix is accepted: the prefix is cached, a missing
   * play raises, a free strategy forgets the task name, and any other strategy keeps the
   * stripped name and prints the banner at once when no host is filtered.
   */
  predicate StartRecorded(cfg: Config, s0: RenderState, before: seq<Line>, s1: RenderState, out1: seq<Line>,
                          task: Task, prefix: Option<string>, status: Status)
  {
    && s1.play == s0.play
    && s1.taskTypeCache == (if prefix.Some? then s0.taskTypeCache[task.uuid := prefix.value] else s0.taskTypeCache)
    && if s1.play.None? then
         status == Raised(AttributeError("strategy")) && out1 == before &&
         s1.lastTaskName == s0.lastTaskName && s1.lastTaskBanner == s0.lastTaskBanner
       else if s1.play.value.strategy in cfg.freeStrategies then
         status == Completed && out1 == before &&
         s1.lastTaskName == None && s1.lastTaskBanner == s0.lastTaskBanner
       else
         && status == Completed
         && s1.lastTaskName == Some(Strip(task.name))
         && if cfg.options.displaySkippedHosts && cfg.options.displayOkHosts then
              s1.lastTaskBanner == Some(task.uuid) &&
              out1 == before + DevTrace(cfg, "_print_task_banner") +
                [TaskBanner(cfg, s1.(lastTaskBanner := s0.lastTaskBanner), task)] + TaskPath(cfg)
            else
              s1.lastTaskBanner == s0.lastTaskBanner && out1 == before
  }

  /** The effect of `_task_start` on the object is the one `TaskStartStep` describes. */
  lemma TaskStartedIsStep(cfg: Config, s: RenderState, before: seq<Line>, s1: RenderState, out1: seq<Line>,
                          task: Task, prefix: Option<string>, status: Status)
    requires TaskStarted(cfg, s, before, s1, out1, task, prefix, status)
    ensures var st := TaskStartStep(cfg, s, task, prefix);
      s1 == st.state && out1 == before + st.lines && status == st.status
  {
    var trace := DevTrace(cfg, "_task_start");
    var st := TaskStartStep(cfg, s, task, prefix);
    if cfg.devMode && PrefixCheck(prefix).Exit? {
      assert st == Step(s, trace + PrefixCheck(prefix).lines, Exited(PrefixCheck(prefix).code));
    } else {
      var sc := if prefix.Some? then s.(taskTypeCache := s.taskTypeCache[task.uuid := prefix.value]) else s;
      assert StartRecorded(cfg, s, before + trace, s1, out1, task, prefix, status);
      if sc.play.None? {
        assert st == Step(sc, trace, Raised(AttributeError("strategy")));
      } else if sc.play.value.strategy in cfg.freeStrategies {
        assert st == Step(sc.(lastTaskName := None), trace, Completed);
      } else {
        var s2 := sc.(lastTaskName := Some(Strip(task.name)));
        if cfg.options.displaySkippedHosts && cfg.options.displayOkHosts {
          assert st == Step(Printed(s2, task), trace + BannerLines(cfg, s2, task), Completed);
          assert s2 == s1.(lastTaskBanner := s.lastTaskBanner);
          var d := DevTrace(cfg, "_print_task_banner");
          var b := [TaskBanner(cfg, s2, task)];
          assert BannerLines(cfg, s2, task) == d + b + TaskPath(cfg);
          AppendAssoc(before, trace, d + b + TaskPath(cfg));
          AppendAssoc(before + trace, d + b, TaskPath(cfg));
          AppendAssoc(before + trace, d, b);
        } else {
          assert st == Step(s2, trace, Completed);
        }
      }
    }
  }

  class CallbackModule {
    const config: Config
    var play: Option<Play>
    var lastTaskBanner: Option<string>
    var lastTaskName: Option<string>
    var taskTypeCache: map<string, string>
    /** Everything written so far, in order. */
    var out: seq<Line>

    function State(): RenderState
      reads this
    {
      RenderState(play, lastTaskBanner, lastTaskName, taskTypeCache)
    }

    /** `__init__`: empty render state, then the DEV_MODE trace line. */
    constructor(options: Options, verbosity: nat, freeStrategies: set<string>)
      ensures config == Config(DEV_MODE, options, verbosity, freeStrategies)
      ensures State() == Initial
      ensures out == DevTrace(config, "__init__")
    {
      config := Config(DEV_MODE, options, verbosity, freeStrategies);
      play := None;
      lastTaskBanner := None;
      lastTaskName := None;
      taskTypeCache := map[];
      out := [];
      new;
      Trace("__init__");
    }

    /** The `>>> name` line a handler writes first in DEV_MODE. */
    method Trace(name: string)
      modifies this
      ensures State() == old(State())
      ensures out == old(out) + DevTrace(config, name)
    {
      if config.devMode {
        out := out + [Display(Normal, ">>> " + name)];
      }
    }

    /** `_validate_input(name, value, expected)`; true when it ends the run with sys.exit(1). */
    method Validate(name: string, v: PyValue, t: PyType, site: CallSite) returns (exited: bool)
      modifies this
      ensures State() == old(State())
      ensures exited <==> ValidateInput(name, v, t, site).Exit?
      ensures exited ==> out == old(out) + ValidateInput(name, v, t, site).lines
      ensures !exited ==> out == old(out)
    {
      var msg: Option<string> := None;
      if !IsInstance(v, t) {
        msg := Some(name + " is not type <" + TypeRepr(t) + ">.");
      } else if v.PyStr? && Strip(v.s) == "" {
        msg := Some(name + " cannot be blank.");
      } else if v == PyList(0) || v == PyDict(0) {
        msg := Some(name + " cannot be empty.");
      }
      exited := msg.Some?;
      if exited {
        out := out + [Error("Invalid input or value:"),
                      Error(msg.value + SiteSuffix(site))];
      }
    }

    /** `_print_task_banner(task)`. */
    method PrintTaskBanner(task: Task)
      modifies this
      ensures State() == Printed(old(State()), task)
      ensures out == old(out) + DevTrace(config, "_print_task_banner") + [TaskBanner(config, old(State()), task)] + TaskPath(config)
    {
      Trace("_print_task_banner");
      ghost var o1 := out;
      // prefix (task type cache), name (cached or stripped), args and check marker
      out := out + [TaskBanner(config, State(), task)];
      if config.verbosity >= 2 {
        out := out + [Helper("_print_task_path")];
      }
      assert out == o1 + [TaskBanner(config, old(State()), task)] + TaskPath(config);
      lastTaskBanner := Some(task.uuid);
    }

    /** `if self._last_task_banner != task._uuid: self._print_task_banner(task)`. */
    method ShowPendingBanner(task: Task)
      modifies this
      ensures State() == Printed(old(State()), task)
      ensures out == old(out) + PendingBanner(config, old(State()), task)
    {
      if lastTaskBanner != Some(task.uuid) {
        PrintTaskBanner(task);
      }
    }

    /** `_task_start(task, prefix)`. */
    method TaskStart(task: Task, prefix: Option<string>) returns (status: Status)
      modifies this
      ensures TaskStarted(config, old(State()), old(out), State(), out, task, prefix, status)
    {
      Trace("_task_start");
      if config.devMode {
        var exited := Validate("prefix", PrefixArgument(prefix), StrType, CallSite("_task_start", 403));
        if exited {
          return Exited(1);
        }
      }
      status := RecordStart(task, prefix);
    }

    /** The part of `_task_start` after the prefix check. */
    method RecordStart(task: Task, prefix: Option<string>) returns (status: Status)
      modifies this
      ensures StartRecorded(config, old(State()), old(out), State(), out, task, prefix, status)
    {
      if prefix.Some? {
        taskTypeCache := taskTypeCache[task.uuid := prefix.value];
      }
      if play.None? {
        return Raised(AttributeError("strategy"));
      }
      if play.value.strategy in config.freeStrategies {
        lastTaskName := None;
      } else {
        lastTaskName := Some(Strip(task.name));
        if config.options.displaySkippedHosts && config.options.displayOkHosts {
          PrintTaskBanner(task);
        }
      }
      return Completed;
    }

    /** A public task-start handler: its own trace line, then `_task_start` with its fixed prefix. */
    method StartWith(handler: string, task: Task, prefix: string) returns (status: Status)
      modifies this
      ensures TaskStarted(config, old(State()), old(out) + DevTrace(config, handler), State(), out, task, Some(prefix), status)
      ensures !IsBlank(prefix) ==> !status.Exited?
    {
      Trace(handler);
      status := TaskStart(task, Some(prefix));
      StripEmptyIffBlank(prefix);
    }

    /** `v2_playbook_on_task_start(task, is_conditional)`. */
    method OnTaskStart(task: Task) returns (status: Status)
      modifies this
      ensures TaskStarted(config, old(State()), old(out) + DevTrace(config, "v2_playbook_on_task_start"), State(), out, task, Some("TASK"), status)
      ensures !status.Exited?
      ensures var st := StartStep(config, old(State()), "v2_playbook_on_task_start", task, "TASK");
        State() == st.state && out == old(out) + st.lines && status == st.status
    {
      KnownPrefixesNotBlank();
      status := StartWith("v2_playbook_on_task_start", task, "TASK");
      TaskStartedIsStep(config, old(State()), old(out) + DevTrace(config, "v2_playbook_on_task_start"), State(), out, task, Some("TASK"), status);
      AppendAssoc(old(out), DevTrace(config, "v2_playbook_on_task_start"), TaskStartStep(config, old(State()), task, Some("TASK")).lines);
    }

    /** `v2_playbook_on_handler_task_start(task)`. */
    method OnHandlerTaskStart(task: Task) returns (status: Status)
      modifies this
      ensures TaskStarted(config, old(State()), old(out) + DevTrace(config, "v2_playbook_on_handler_task_start"), State(), out, task, Some("RUNNING HANDLER"), status)
      ensures !status.Exited?
      ensures var st := StartStep(config, old(State()), "v2_playbook_on_handler_task_start", task, "RUNNING HANDLER");
        State() == st.state && out == old(out) + st.lines && status == st.status
    {
      KnownPrefixesNotBlank();
      status := StartWith("v2_playbook_on_handler_task_start", task, "RUNNING HANDLER");
      TaskStartedIsStep(config, old(State()), old(out) + DevTrace(config, "v2_playbook_on_handler_task_start"), State(), out, task, Some("RUNNING HANDLER"), status);
      AppendAssoc(old(out), DevTrace(config, "v2_playbook_on_handler_task_start"), TaskStartStep(config, old(State()), task, Some("RUNNING HANDLER")).lines);
    }

    /** `v2_playbook_on_cleanup_task_start(task)`. */
    method OnCleanupTaskStart(task: Task) returns (status: Status)
      modifies this
      ensures TaskStarted(config, old(State()), old(out) + DevTrace(config, "v2_playbook_on_cleanup_task_start"), State(), out, task, Some("CLEANUP TASK"), status)
      ensures !status.Exited?
      ensures var st := StartStep(config, old(State()), "v2_playbook_on_cleanup_task_start", task, "CLEANUP TASK");
        State() == st.state && out == old(out) + st.lines && status == st.status
    {
      KnownPrefixesNotBlank();
      status := StartWith("v2_playbook_on_cleanup_task_start", task, "CLEANUP TASK");
      TaskStartedIsStep(config, old(State()), old(out) + DevTrace(config, "v2_playbook_on_cleanup_task_start"), State(), out, task, Some("CLEANUP TASK"), status);
      AppendAssoc(old(out), DevTrace(config, "v2_playbook_on_cleanup_task_start"), TaskStartStep(config, old(State()), task, Some("CLEANUP TASK")).lines);
    }

    /** `v2_playbook_on_start(playbook)`. */
    method OnPlaybookStart(playbook: Playbook, cli: CliArgs)
      modifies this
      ensures State() == old(State())
      ensures out == old(out) + DevTrace(config, "v2_playbook_on_start") + PlaybookBanner(config, playbook) +
        CliDump(config, cli) + DryRun(config, cli)
      ensures out == old(out) + PlaybookStartLines(config, playbook, cli)
    {
      AppendAssoc(out, DevTrace(config, "v2_playbook_on_start"), PlaybookBanner(config, playbook));
      AppendAssoc3(out, DevTrace(config, "v2_playbook_on_start") + PlaybookBanner(config, playbook), CliDump(config, cli), DryRun(config, cli));
      Trace("v2_playbook_on_start");
      ghost var o1 := out;
      if config.verbosity > 1 {
        out := out + [Banner("PLAYBOOK: " + Basename(playbook.fileName))];
      }
      assert out == o1 + PlaybookBanner(config, playbook);
      ghost var o2 := out;
      if config.verbosity > 3 {
        ShowCliArgs(cli);
        assert out == o2 + CliDump(config, cli);
      } else {
        assert out == o2 + CliDump(config, cli);
      }
      ghost var o3 := out;
      if cli.check && config.options.checkModeMarkers {
        out := out + [Banner("DRY RUN")];
      }
      assert out == o3 + DryRun(config, cli);
    }

    /** The verbosity 4 part of `v2_playbook_on_start`: positional arguments, then every other option set. */
    method ShowCliArgs(cli: CliArgs)
      modifies this
      ensures State() == old(State())
      ensures out == old(out) + PositionalLine(cli) + CliLines(cli.entries)
    {
      if cli.positional != [] {
        out := out + [Display(ScreenOnly, "Positional arguments: " + Join(" ", cli.positional))];
      }
      ghost var start := out;
      assert start == old(out) + PositionalLine(cli);
      var entries := cli.entries;
      var i := 0;
      while i < |entries|
        invariant 0 <= i <= |entries|
        invariant State() == old(State())
        invariant out == start + CliLines(entries[..i])
      {
        var e := entries[i];
        assert entries[..i + 1][..i] == entries[..i];
        if e.key != "args" && e.truthy {
          out := out + [Display(ScreenOnly, e.key + ": " + e.rendered)];
        }
        i := i + 1;
      }
      assert entries[..i] == entries;
    }

    /** `v2_playbook_on_play_start(play)`. */
    method OnPlayStart(p: Play)
      modifies this
      ensures State() == old(State()).(play := Some(p))
      ensures out == old(out) + DevTrace(config, "v2_playbook_on_play_start") +
        [Banner(PlayBannerText(p.name, p.checkMode, config.options.checkModeMarkers))]
      ensures var st := PlayStartStep(config, old(State()), p); State() == st.state && out == old(out) + st.lines
    {
      AppendAssoc(out, DevTrace(config, "v2_playbook_on_play_start"),
        [Banner(PlayBannerText(p.name, p.checkMode, config.options.checkModeMarkers))]);
      Trace("v2_playbook_on_play_start");
      var name := Strip(p.name);
      var checkmsg := if p.checkMode && config.options.checkModeMarkers then " [CHECK MODE]" else "";
      var msg := if name == "" then "PLAY" + checkmsg else "PLAY [" + name + "]" + checkmsg;
      assert msg == PlayBannerText(p.name, p.checkMode, config.options.checkModeMarkers);
      play := Some(p);
      out := out + [Banner(msg)];
    }

    /** `v2_playbook_on_no_hosts_matched()`. */
    method OnNoHostsMatched()
      modifies this
      ensures State() == old(State())
      ensures out == old(out) + NoHostsMatchedLines(config)
    {
      Trace("v2_playbook_on_no_hosts_matched");
      out := out + [Display(Normal, "skipping: no hosts matched")];
    }

    /** `v2_playbook_on_notify(handler, host)`. */
    method OnNotify(handlerName: string, hostName: string)
      modifies this
      ensures State() == old(State())
      ensures out == old(out) + NotifyLines(config, handlerName, hostName)
    {
      Trace("v2_playbook_on_notify");
      if config.verbosity > 1 {
        out := out + [Display(ScreenOnly, "NOTIFIED HANDLER " + handlerName + " for " + hostName)];
      }
    }

    /** `v2_runner_on_start(host, task)`. */
    method OnRunnerStart(hostName: string, task: Task)
      modifies this
      ensures State() == old(State())
      ensures out == old(out) + RunnerStartLines(config, hostName, task)
    {
      Trace("v2_runner_on_start");
      if config.options.showPerHostStart {
        out := out + [Display(Normal, " [started " + task.repr + " on " + hostName + "]")];
      }
    }

    /** `v2_runner_on_async_poll(result)`. */
    method OnAsyncPoll(r: TaskResult)
      modifies this
      ensures State() == old(State())
      ensures out == old(out) + AsyncPollLines(config, r)
    {
      Trace("v2_runner_on_async_poll");
      out := out + [Display(Normal, AsyncPollLine(r))];
    }

    /** `v2_runner_on_async_ok(result)`. */
    method OnAsyncOk(r: TaskResult)
      modifies this
      ensures State() == old(State())
      ensures out == old(out) + AsyncOkLines(config, r)
    {
      Trace("v2_runner_on_async_ok");
      out := out + [Display(Normal, AsyncOkLine(r))];
    }

    /** `v2_runner_on_async_failed(result)`: falls back to the nested job id. */
    method OnAsyncFailed(r: TaskResult)
      modifies this
      ensures State() == old(State())
      ensures out == old(out) + AsyncFailedLines(config, r)
    {
      Trace("v2_runner_on_async_failed");
      var jid := r.jobId;
      if (jid.None? || jid.value == "") && r.asyncResult.Some? {
        jid := r.asyncResult.value;
      }
      out := out + [Display(Normal, "ASYNC FAILED on " + r.hostName + ": jid=" + Show(jid))];
    }

    /** `v2_on_file_diff(result)`: each shown diff, after the banner if it is still pending. */
    method OnFileDiff(r: TaskResult)
      modifies this
      ensures DiffsToShow(r) == [] ==>
        State() == old(State()) && out == old(out) + DevTrace(config, "v2_on_file_diff")
      ensures DiffsToShow(r) != [] ==>
        State() == Printed(old(State()), r.task) &&
        out == old(out) + DevTrace(config, "v2_on_file_diff") + PendingBanner(config, old(State()), r.task) + DiffLines(DiffsToShow(r))
      ensures var st := FileDiffStep(config, old(State()), r); State() == st.state && out == old(out) + st.lines
    {
      AppendAssoc3(out, DevTrace(config, "v2_on_file_diff"), PendingBanner(config, State(), r.task), DiffLines(DiffsToShow(r)));
      Trace("v2_on_file_diff");
      ghost var s0 := old(State());
      ghost var o1 := out;
      if LoopWithResults(r) {
        assert DiffsToShow(r) == ShownDiffs(r.results.value);
        ShowItemDiffs(r.task, r.results.value);
      } else if r.diffPresent && r.changed {
        var diff := r.renderedDiff;
        if diff != "" {
          assert DiffsToShow(r) == [diff];
          ShowPendingBanner(r.task);
          assert out == o1 + PendingBanner(config, s0, r.task);
          out := out + [Display(Normal, diff)];
          assert DiffLines([diff]) == [Display(Normal, diff)];
        } else {
          assert DiffsToShow(r) == [];
        }
      } else {
        assert DiffsToShow(r) == [];
      }
    }

    /** The loop of `v2_on_file_diff` over the per-item results. */
    method ShowItemDiffs(task: Task, results: seq<SubResult>)
      modifies this
      ensures ShownDiffs(results) == [] ==> State() == old(State()) && out == old(out)
      ensures ShownDiffs(results) != [] ==>
        State() == Printed(old(State()), task) &&
        out == old(out) + PendingBanner(config, old(State()), task) + DiffLines(ShownDiffs(results))
    {
      ghost var shown: seq<string> := [];
      ghost var banner := old(out) + PendingBanner(config, old(State()), task);
      var i := 0;
      while i < |results|
        invariant 0 <= i <= |results|
        invariant shown == ShownDiffs(results[..i])
        invariant shown == [] ==> State() == old(State()) && out == old(out)
        invariant shown != [] ==> State() == Printed(old(State()), task) && out == banner + DiffLines(shown)
      {
        var res := results[i];
        ShownDiffsSnoc(results, i);
        if res.hasDiff && res.changed {
          var diff := res.diff;
          if diff != "" {
            ShowPendingBanner(task);
            assert out == banner + DiffLines(shown) by {
              if shown != [] {
                assert PendingBanner(config, Printed(old(State()), task), task) == [];
              }
            }
            out := out + [Display(Normal, diff)];
            DiffLinesSnoc(shown, diff);
            assert out == banner + DiffLines(shown + [diff]);
            shown := shown + [diff];
          }
        }
        i := i + 1;
      }
      assert results[..i] == results;
    }

    /** `v2_runner_on_ok(result)`. */
    method OnRunnerOk(r: TaskResult) returns (status: Status)
      modifies this
      ensures r.msg.None? ==>
        status == Raised(KeyError("msg")) && State() == old(State()) && out == old(out) + OkHead(config)
      ensures r.msg.Some? && r.task.isInclude ==>
        status == Completed && State() == Printed(old(State()), r.task) &&
        out == old(out) + OkHead(config) + [Print(r.msg.value)] + PendingBanner(config, old(State()), r.task)
      ensures r.msg.Some? && !r.task.isInclude && !r.changed && !config.options.displayOkHosts ==>
        status == Completed && State() == old(State()) && out == old(out) + OkHead(config) + [Print(r.msg.value)]
      ensures r.msg.Some? && !r.task.isInclude && (r.changed || config.options.displayOkHosts) ==>
        status == Completed && State() == Printed(old(State()), r.task) &&
        out == old(out) + OkHead(config) + [Print(r.msg.value)] + PendingBanner(config, old(State()), r.task) + OkBody(r)
      ensures var st := OkStep(config, old(State()), r);
        State() == st.state && out == old(out) + st.lines && status == st.status
    {
      if r.msg.Some? {
        var head := OkHead(config) + [Print(r.msg.value)];
        AppendAssoc(out, OkHead(config), [Print(r.msg.value)]);
        AppendAssoc(out, head, PendingBanner(config, State(), r.task));
        AppendAssoc3(out, head, PendingBanner(config, State(), r.task), OkBody(r));
      }
      Trace("v2_runner_on_ok");
      out := out + DebugPrints();
      assert out == old(out) + OkHead(config);
      if r.msg.None? {
        return Raised(KeyError("msg"));
      }
      out := out + [Print(r.msg.value)];
      if r.task.isInclude {
        ShowPendingBanner(r.task);
        return Completed;
      } else if r.changed {
        ShowPendingBanner(r.task);
      } else {
        if !config.options.displayOkHosts {
          return Completed;
        }
        ShowPendingBanner(r.task);
      }
      var last := if LoopWithResults(r) then Helper("_process_items") else StatusLine(r);
      out := out + [Helper("_handle_warnings"), last];
      return Completed;
    }

    /** `v2_runner_on_unreachable(result)`. */
    method OnUnreachable(r: TaskResult)
      modifies this
      ensures State() == Printed(old(State()), r.task)
      ensures out == old(out) + DevTrace(config, "v2_runner_on_unreachable") + PendingBanner(config, old(State()), r.task) + UnreachableBody(config, r)
      ensures var st := UnreachableStep(config, old(State()), r); State() == st.state && out == old(out) + st.lines
    {
      AppendAssoc3(out, DevTrace(config, "v2_runner_on_unreachable"), PendingBanner(config, State(), r.task), UnreachableBody(config, r));
      Trace("v2_runner_on_unreachable");
      ShowPendingBanner(r.task);
      out := out + [Display(ErrChannel(config), "fatal: [" + r.hostLabel + "]: UNREACHABLE! => " + r.dump)];
      if r.task.ignoreUnreachable {
        out := out + [Display(Normal, "...ignoring")];
      }
    }

    /** `v2_runner_on_failed(result, ignore_errors)`. */
    method OnFailed(r: TaskResult, ignoreErrors: Option<bool>)
      modifies this
      ensures State() == Printed(old(State()), r.task)
      ensures out == old(out) + DevTrace(config, "v2_runner_on_failed") + PendingBanner(config, old(State()), r.task) +
        FailedBody(config, r, Ignoring(config, ignoreErrors))
      ensures var st := FailedStep(config, old(State()), r, ignoreErrors); State() == st.state && out == old(out) + st.lines
    {
      AppendAssoc3(out, DevTrace(config, "v2_runner_on_failed"), PendingBanner(config, State(), r.task), FailedBody(config, r, Ignoring(config, ignoreErrors)));
      Trace("v2_runner_on_failed");
      var ignoring := ignoreErrors;
      if config.devMode && ignoring.None? {
        ignoring := Some(false);
      }
      ShowPendingBanner(r.task);
      var middle: seq<Line>;
      if LoopWithResults(r) {
        middle := [Helper("_process_items")];
      } else {
        var path := [];
        if config.verbosity < 2 && config.options.showTaskPathOnFailure {
          path := [Helper("_print_task_path")];
        }
        middle := path + [FatalLine(config, r)];
      }
      var tail := if ignoring.Some? && ignoring.value then [IgnoringLine()] else [];
      out := out + ([Helper("_handle_exception"), Helper("_handle_warnings")] + middle + tail);
    }

    /** `v2_runner_on_skipped(result)`. */
    method OnSkipped(r: TaskResult)
      modifies this
      ensures !config.options.displaySkippedHosts ==>
        State() == old(State()) && out == old(out) + DevTrace(config, "v2_runner_on_skipped")
      ensures config.options.displaySkippedHosts ==>
        State() == Printed(old(State()), r.task) &&
        out == old(out) + DevTrace(config, "v2_runner_on_skipped") + PendingBanner(config, old(State()), r.task) + SkippedBody(r)
      ensures var st := SkippedStep(config, old(State()), r); State() == st.state && out == old(out) + st.lines
    {
      AppendAssoc3(out, DevTrace(config, "v2_runner_on_skipped"), PendingBanner(config, State(), r.task), SkippedBody(r));
      Trace("v2_runner_on_skipped");
      if config.options.displaySkippedHosts {
        ShowPendingBanner(r.task);
        if r.task.loop.Loop? && r.results.Some? {
          out := out + [Helper("_process_items")];
        }
        out := out + [Display(Normal, "skipping: [" + r.hostName + "]" + VerboseSuffix(r))];
      }
    }

    /** `v2_playbook_on_include(included_file)`. */
    method OnInclude(f: IncludedFile)
      modifies this
      ensures State() == old(State())
      ensures out == old(out) + IncludeLines(config, f)
    {
      Trace("v2_playbook_on_include");
      var msg := "included: " + f.fileName + " for " + Join(", ", f.hostNames);
      var item := if f.itemLabel != "" then " => (item=" + f.itemLabel + ")" else "";
      out := out + [Display(Normal, msg + item)];
    }

    /** `v2_runner_item_on_ok(result)`. */
    method OnItemOk(r: TaskResult)
      modifies this
      ensures r.task.isInclude || (!r.changed && !config.options.displayOkHosts) ==>
        State() == old(State()) && out == old(out) + DevTrace(config, "v2_runner_item_on_ok")
      ensures !r.task.isInclude && (r.changed || config.options.displayOkHosts) ==>
        State() == Printed(old(State()), r.task) &&
        out == old(out) + DevTrace(config, "v2_runner_item_on_ok") + PendingBanner(config, old(State()), r.task) + [ItemStatusLine(r)]
      ensures var st := ItemOkStep(config, old(State()), r); State() == st.state && out == old(out) + st.lines
    {
      AppendAssoc3(out, DevTrace(config, "v2_runner_item_on_ok"), PendingBanner(config, State(), r.task), [ItemStatusLine(r)]);
      Trace("v2_runner_item_on_ok");
      if r.task.isInclude {
        return;
      }
      if !r.changed && !config.options.displayOkHosts {
        return;
      }
      ShowPendingBanner(r.task);
      out := out + [ItemStatusLine(r)];
    }

    /** `v2_runner_item_on_failed(result)`. */
    method OnItemFailed(r: TaskResult)
      modifies this
      ensures State() == Printed(old(State()), r.task)
      ensures out == old(out) + DevTrace(config, "v2_runner_item_on_failed") + PendingBanner(config, old(State()), r.task) + ItemFailedBody(config, r)
      ensures var st := ItemFailedStep(config, old(State()), r); State() == st.state && out == old(out) + st.lines
    {
      AppendAssoc3(out, DevTrace(config, "v2_runner_item_on_failed"), PendingBanner(config, State(), r.task), ItemFailedBody(config, r));
      Trace("v2_runner_item_on_failed");
      ShowPendingBanner(r.task);
      out := out + [Helper("_handle_exception"), Helper("_handle_warnings")];
      out := out + [Display(ErrChannel(config), "failed: [" + r.hostLabel + "] (item=" + r.itemLabel + ") => " + r.dump)];
    }

    /** `v2_runner_item_on_skipped(result)`. */
    method OnItemSkipped(r: TaskResult)
      modifies this
      ensures !config.options.displaySkippedHosts ==>
        State() == old(State()) && out == old(out) + DevTrace(config, "v2_runner_item_on_skipped")
      ensures config.options.displaySkippedHosts ==>
        State() == Printed(old(State()), r.task) &&
        out == old(out) + DevTrace(config, "v2_runner_item_on_skipped") + PendingBanner(config, old(State()), r.task) + [ItemSkippedLine(r)]
      ensures var st := ItemSkippedStep(config, old(State()), r); State() == st.state && out == old(out) + st.lines
    {
      AppendAssoc3(out, DevTrace(config, "v2_runner_item_on_skipped"), PendingBanner(config, State(), r.task), [ItemSkippedLine(r)]);
      Trace("v2_runner_item_on_skipped");
      if config.options.displaySkippedHosts {
        ShowPendingBanner(r.task);
        out := out + [ItemSkippedLine(r)];
      }
    }

    /** `v2_playbook_on_no_hosts_remaining()`. */
    method OnNoHostsRemaining()
      modifies this
      ensures State() == old(State())
      ensures out == old(out) + NoHostsRemainingLines(config)
    {
      Trace("v2_playbook_on_no_hosts_remaining");
      out := out + [Banner("NO MORE HOSTS LEFT")];
    }

    /** `v2_runner_retry(result)`. */
    method OnRetry(r: TaskResult) returns (status: Status)
      modifies this
      ensures var st := RetryStep(config, old(State()), r);
        State() == st.state && out == old(out) + st.lines && status == st.status
    {
      Trace("v2_runner_retry");
      if r.retries.None? {
        return Raised(KeyError("retries"));
      }
      if r.attempts.None? {
        return Raised(KeyError("attempts"));
      }
      out := out + [Display(Normal, RetryMessage(r, r.retries.value - r.attempts.value))];
      return Completed;
    }

    /** `v2_playbook_on_stats(stats)`. */
    method OnStats(stats: Stats, cli: CliArgs)
      modifies this
      ensures State() == old(State())
      ensures out == old(out) + DevTrace(config, "v2_playbook_on_stats") + [Banner("PLAY RECAP")] +
        RecapLines(Sorting.SortedKeys(stats.processed), stats.summarize) +
        [Display(ScreenOnly, "")] + CustomStats(config, stats) + DryRun(config, cli)
      ensures out == old(out) + StatsLines(config, stats, cli)
    {
      ghost var head := DevTrace(config, "v2_playbook_on_stats") + [Banner("PLAY RECAP")];
      ghost var recap := RecapLines(Sorting.SortedKeys(stats.processed), stats.summarize);
      AppendAssoc(out, DevTrace(config, "v2_playbook_on_stats"), [Banner("PLAY RECAP")]);
      AppendAssoc3(out, head, recap, StatsTail(config, stats, cli));
      AppendAssoc3(out + head + recap, [Display(ScreenOnly, "")], CustomStats(config, stats), DryRun(config, cli));
      Trace("v2_playbook_on_stats");
      out := out + [Banner("PLAY RECAP")];
      ShowRecap(stats);
      out := out + [Display(ScreenOnly, "")];
      ghost var o1 := out;
      if |stats.custom| > 0 && config.options.showCustomStats {
        ShowCustomStats(stats);
        var header := [Banner("CUSTOM STATS: ")];
        var lines := CustomLines(Without(Sorting.SortedKeys(stats.custom.Keys), "_run"), stats.custom);
        AppendAssoc(o1, header, lines);
        AppendAssoc(o1, header + lines, RunLines(stats.custom));
        AppendAssoc(o1, header + lines + RunLines(stats.custom), [Display(ScreenOnly, "")]);
      }
      assert out == o1 + CustomStats(config, stats);
      ghost var o2 := out;
      if cli.check && config.options.checkModeMarkers {
        out := out + [Banner("DRY RUN")];
      }
      assert out == o2 + DryRun(config, cli);
    }

    /** The host loop of `v2_playbook_on_stats`: each processed host, in sorted order. */
    method ShowRecap(stats: Stats)
      modifies this
      ensures State() == old(State())
      ensures out == old(out) + RecapLines(Sorting.SortedKeys(stats.processed), stats.summarize)
    {
      var hosts := Sorting.Sort(stats.processed);
      var i := 0;
      while i < |hosts|
        invariant 0 <= i <= |hosts|
        invariant State() == old(State())
        invariant out == old(out) + RecapLines(hosts[..i], stats.summarize)
      {
        var h := hosts[i];
        var t := stats.summarize(h);
        assert hosts[..i + 1][..i] == hosts[..i];
        assert RecapLines(hosts[..i + 1], stats.summarize) == RecapLines(hosts[..i], stats.summarize) + HostLines(h, t);
        out := out + [Display(ScreenOnly, HostRecap(h, t)), Display(LogOnly, HostRecap(h, t))];
        i := i + 1;
      }
      assert hosts[..i] == hosts;
    }

    /** The custom-stats part of `v2_playbook_on_stats`: every key but '_run' in sorted order, then RUN. */
    method ShowCustomStats(stats: Stats)
      modifies this
      ensures State() == old(State())
      ensures forall k :: k in Without(Sorting.SortedKeys(stats.custom.Keys), "_run") ==> k in stats.custom
      ensures out == old(out) + [Banner("CUSTOM STATS: ")] +
        CustomLines(Without(Sorting.SortedKeys(stats.custom.Keys), "_run"), stats.custom) +
        RunLines(stats.custom) + [Display(ScreenOnly, "")]
    {
      out := out + [Banner("CUSTOM STATS: ")];
      var keys := Sorting.Sort(stats.custom.Keys);
      Sorting.SortedKeysMembers(stats.custom.Keys);
      ShowCustomKeys(stats.custom, keys);
      ghost var loopEnd := out;
      if "_run" in stats.custom {
        out := out + [Display(ScreenOnly, ""), Display(Normal, "\tRUN: " + RemoveNewlines(stats.custom["_run"]))];
      }
      assert out == loopEnd + RunLines(stats.custom);
      out := out + [Display(ScreenOnly, "")];
    }

    /** The loop over the sorted custom keys, skipping '_run'. */
    method ShowCustomKeys(custom: map<string, string>, keys: seq<string>)
      modifies this
      requires forall k :: k in keys ==> k in custom
      ensures State() == old(State())
      ensures out == old(out) + CustomLines(Without(keys, "_run"), custom)
    {
      ghost var shown: seq<string> := [];
      var j := 0;
      while j < |keys|
        invariant 0 <= j <= |keys|
        invariant State() == old(State())
        invariant shown == Without(keys[..j], "_run")
        invariant out == old(out) + CustomLines(shown, custom)
      {
        var k := keys[j];
        WithoutSnoc(keys, j, "_run");
        if k != "_run" {
          CustomLinesSnoc(shown, k, custom);
          out := out + [CustomLine(k, custom[k])];
          shown := shown + [k];
        }
        j := j + 1;
      }
      assert keys[..j] == keys;
    }

    // -------------------------------------------------------------------------------------
    // Dispatch: the handler called for an event, as `CustomDefaultSpec.Handle` describes it
    // -------------------------------------------------------------------------------------

    /** A result event. */
    method DispatchResult(e: Event) returns (status: Status)
      requires e.IsResult()
      modifies this
      ensures var st := HandleResult(config, old(State()), e);
        State() == st.state && out == old(out) + st.lines && status == st.status
    {
      status := Completed;
      match e
      case FileDiff(r) => OnFileDiff(r);
      case RunnerOk(r) => status := OnRunnerOk(r);
      case Unreachable(r) => OnUnreachable(r);
      case Failed(r, ignoreErrors) => OnFailed(r, ignoreErrors);
      case Skipped(r) => OnSkipped(r);
      case ItemOk(r) => OnItemOk(r);
      case ItemFailed(r) => OnItemFailed(r);
      case ItemSkipped(r) => OnItemSkipped(r);
    }

    /** An event whose handler keeps the render state. */
    method DispatchQuiet(e: Event) returns (status: Status)
      requires e.KeepsState()
      modifies this
      ensures var st := HandleQuiet(config, old(State()), e);
        State() == st.state && out == old(out) + st.lines && status == st.status
    {
      status := Completed;
      match e
      case NoHostsMatched => OnNoHostsMatched();
      case Notify(handlerName, hostName) => OnNotify(handlerName, hostName);
      case RunnerStart(hostName, task) => OnRunnerStart(hostName, task);
      case AsyncPoll(r) => OnAsyncPoll(r);
      case AsyncOk(r) => OnAsyncOk(r);
      case AsyncFailed(r) => OnAsyncFailed(r);
      case Include(f) => OnInclude(f);
      case Retry(r) => status := OnRetry(r);
    }

    /** A playbook, play or task start, or one of the two end-of-run reports. */
    method DispatchOther(e: Event) returns (status: Status)
      requires !e.IsResult() && !e.KeepsState()
      modifies this
      ensures var st := HandleOther(config, old(State()), e);
        State() == st.state && out == old(out) + st.lines && status == st.status
    {
      status := Completed;
      match e
      case PlaybookStart(pb, cli) => OnPlaybookStart(pb, cli);
      case PlayStart(p) => OnPlayStart(p);
      case TaskStart(task) => status := OnTaskStart(task);
      case HandlerTaskStart(task) => status := OnHandlerTaskStart(task);
      case CleanupTaskStart(task) => status := OnCleanupTaskStart(task);
      case NoHostsRemaining => OnNoHostsRemaining();
      case PlaybookStats(stats, cli) => OnStats(stats, cli);
    }

    /** Any event: the handler Ansible calls for it, with the effect `Handle` gives. */
    method Dispatch(e: Event) returns (status: Status)
      modifies this
      ensures var st := Handle(config, old(State()), e);
        State() == st.state && out == old(out) + st.lines && status == st.status
    {
      if e.IsResult() {
        status := DispatchResult(e);
      } else if e.KeepsState() {
        status := DispatchQuiet(e);
      } else {
        status := DispatchOther(e);
      }
    }
  }
}
