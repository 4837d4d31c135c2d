# Ansible callback plugins of ansible-qrg, modelled in Dafny

The repository ships four Ansible callback plugins. This project models all four.

- **`custom_default.py`** is a customised copy of Ansible's `default` stdout callback. It keeps a little render state:
  - the current play;
  - the uuid of the last task whose banner was printed;
  - the cached task name;
  - a per-task cache of banner prefixes (`TASK`, `RUNNING HANDLER`, `CLEANUP TASK`).

  Every handler writes display lines. In DEV_MODE, every handler first writes a `>>> name` line and validates its inputs, exiting the process on an invalid one. The result handlers print the task's banner lazily: only the first result handler that reaches the check prints it.
- **Two copies of `tracer_callback.py`** wrap every callback method in `trace_decorator`. The decorator prints `>>> Called <name>...` before each call when the module flag `TRACE` is set, and passes the call through unchanged. The tracer-role copy has the same handlers as the roles-playbook copy, minus the cleanup-task handler.
- **`custom_aggregate.py`** numbers the tasks it sees, starting at 1, and announces the hosts of each play.

How the model is built:

- Output is a sequence of `Output.Line` values: `Display(channel, text)`, `Banner`, `Error`, a bare `print()`, or a call to an inherited helper that is not modelled.
- The handlers of `custom_default.py` are pure functions in `CustomDefaultSpec`. Each maps the configuration, the render state and the event payload to a new state, the lines written, and how the call ended: completed, an exception it lets through, or `sys.exit(1)`.
- The class `CustomDefault.CallbackModule` keeps the source's fields. It has one method per handler, proved to write exactly those lines and to leave exactly that state. `Dispatch` runs the handler for any event and is proved to have the effect `Handle` gives.
- Run-level lemmas replay event sequences through `Handle`. For any run that follows a task's start and holds results sharing that task's uuid, mixed with the handlers that keep the render state and print no banner (per-host start, notify, the async reports, retry, include, "no hosts matched"), they show that a banner appears exactly once when `_last_task_banner` moves to the uuid and never otherwise, and that every banner carries the prefix the task was started with. The results may carry re-templated copies of the task, with another name or other args. A separate lemma about one `v2_playbook_on_stats` call shows that the recap lists every processed host once, in sorted order.
- The tracer copies are modelled as a generic `Tracer.Wrap` over the handler bodies. Both copies are proved to print exactly one trace line per call, and the line names the method.
- `CustomAggregate.CallbackModule` keeps the task counter and the output. Replaying any event sequence shows that the k-th task start prints `This is task k.`.

Python's `sorted()` on strings is modelled by `Sorting.Sort`, which is proved correct against a specification `Sorting.SortedKeys`. `str.strip`, `os.path.basename`, `str.join`, `str.replace('\n', '')` and `%d` are in `Text`.

## Model

| member | source | states |
|---|---|---|
| Text.StripEmptyIffBlank | role_demo/roles/demo_role/callback_plugins/custom_default.py:1100-1101 | `s.strip()` is empty exactly when every character of `s` is whitespace |
| Text.StripIdempotent | role_demo/roles/demo_role/callback_plugins/custom_default.py:418 | stripping a stripped task name again changes nothing |
| Text.RemoveNewlinesKeepsTheRest | role_demo/roles/demo_role/callback_plugins/custom_default.py:1066-1067 | no newline is left in the custom-stat value, every other character of it still occurs, and it is no longer; `RemoveNewlinesConcat` and `RemoveNewlinesCounts` fix order and count |
| Text.RemoveNewlinesConcat | role_demo/roles/demo_role/callback_plugins/custom_default.py:1066-1067 | removing newlines from two pieces is removing them from each in turn, so the other characters keep their order |
| Text.RemoveNewlinesCounts | role_demo/roles/demo_role/callback_plugins/custom_default.py:1066-1067 | every character other than a newline stays exactly as many times as it occurred, and no newline is left |
| Text.BasenameIsLastComponent | role_demo/roles/demo_role/callback_plugins/custom_default.py:168-170 | `basename(path)` has no `/` and is a suffix of the path, right after its last `/` (or the whole path) |
| Text.NatToString | role_demo/roles/demo_role/callback_plugins/custom_default.py:994-995 | decimal rendering is non-empty and made only of digits; `NatToStringNoLeadingZero` rules out leading zeros |
| Text.NatToStringNoLeadingZero | role_demo/roles/demo_role/callback_plugins/custom_default.py:994-995 | no rendering starts with `0` except that of 0 itself, as `%d` prints |
| Text.DecimalRoundTrip | role_demo/roles/demo_role/callback_plugins/custom_default.py:994-995 | the decimal rendering of n reads back as n |
| Text.NatToStringInjective | role_demo/roles/demo_role/callback_plugins/custom_aggregate.py:55 | distinct numbers render differently |
| Sorting.SortedKeysCorrect | role_demo/roles/demo_role/callback_plugins/custom_default.py:1023 | `sorted(keys)` is sorted, has one entry per key, and holds exactly the keys |
| Sorting.Sort | role_demo/roles/demo_role/callback_plugins/custom_default.py:1023 | the selection loop returns `SortedKeys(keys)` |
| Sorting.NotAboveTotal | role_demo/roles/demo_role/callback_plugins/custom_default.py:1023 | Python's string order compares any two strings (with reflexivity, antisymmetry and transitivity alongside) |
| CustomDefaultSpec.DevTrace | role_demo/roles/demo_role/callback_plugins/custom_default.py:133-135 | never a banner; in DEV_MODE exactly the one `>>> name` line, otherwise nothing |
| CustomDefaultSpec.ValidateInput | role_demo/roles/demo_role/callback_plugins/custom_default.py:1079-1115 | exits exactly on a wrong type, a blank string, or an empty list or dict; exit code 1; first line `Invalid input or value:`; the second names the object, gives the first check that failed, and ends with the calling function and line |
| CustomDefaultSpec.FormatArgs | role_demo/roles/demo_role/callback_plugins/custom_default.py:455 | one `k=v` per argument, in order |
| CustomDefaultSpec.ArgsText | role_demo/roles/demo_role/callback_plugins/custom_default.py:453-456 | empty exactly for a `no_log` task (DISPLAY_ARGS_TO_STDOUT is the truthy string 'false'); else a blank then the joined arguments |
| CustomDefaultSpec.TaskPrefix | role_demo/roles/demo_role/callback_plugins/custom_default.py:458 | the cached prefix for the task's uuid, else `TASK`; `TaskBannerPrefix` and `CachedPrefixInBanner` show that the banner opens with it |
| CustomDefaultSpec.BannerLinesShape | role_demo/roles/demo_role/callback_plugins/custom_default.py:425-475 | `_print_task_banner` writes exactly one banner, the task's |
| CustomDefaultSpec.PendingBannerShape | role_demo/roles/demo_role/callback_plugins/custom_default.py:619-620 | the guarded banner call writes no banner when the task was the last one bannered, one otherwise |
| CustomDefaultSpec.TaskStartStep | role_demo/roles/demo_role/callback_plugins/custom_default.py:380-423 | exits (code 1, state unchanged) exactly on a missing or blank prefix in DEV_MODE; caches the prefix exactly when one is given; raises for a missing play; free strategies forget the name; otherwise keeps the stripped name and banners at once exactly when no host is filtered |
| CustomDefaultSpec.StartStep | role_demo/roles/demo_role/callback_plugins/custom_default.py:268-306 | a non-blank prefix never exits, and a completed start caches it |
| CustomDefaultSpec.KnownPrefixesNotBlank | role_demo/roles/demo_role/callback_plugins/custom_default.py:306 | `TASK`, `RUNNING HANDLER` and `CLEANUP TASK` pass the blank check |
| CustomDefaultSpec.TaskStartBanners | role_demo/roles/demo_role/callback_plugins/custom_default.py:413-423 | a completed task start prints one banner exactly when the strategy is not free and neither ok nor skipped hosts are hidden, none otherwise |
| CustomDefaultSpec.OkStep | role_demo/roles/demo_role/callback_plugins/custom_default.py:630-689 | a KeyError after the debug prints exactly when `msg` is missing; include tasks print at most the banner; unchanged results with display_ok_hosts off stop before the banner; otherwise banner, warnings, then the items or the status line |
| CustomDefaultSpec.UnreachableBody | role_demo/roles/demo_role/callback_plugins/custom_default.py:715-722 | the UNREACHABLE line on the error channel, then `...ignoring` exactly when unreachable hosts are ignored |
| CustomDefaultSpec.Ignoring | role_demo/roles/demo_role/callback_plugins/custom_default.py:749-773 | errors count as ignored exactly when `ignore_errors` is True, whether DEV_MODE turned None into False or not |
| CustomDefaultSpec.FailedBodyShape | role_demo/roles/demo_role/callback_plugins/custom_default.py:758-774 | exception and warning helpers first; the FAILED line exactly when no per-item results are processed; `...ignoring` last exactly when errors are ignored |
| CustomDefaultSpec.SkippedBody | role_demo/roles/demo_role/callback_plugins/custom_default.py:804-810 | never a banner; it ends with the `skipping: [host]` line |
| CustomDefaultSpec.SkippedStep | role_demo/roles/demo_role/callback_plugins/custom_default.py:776-810 | only the trace, state unchanged, exactly when skipped hosts are hidden |
| CustomDefaultSpec.ItemOkStep | role_demo/roles/demo_role/callback_plugins/custom_default.py:838-883 | only the trace, state unchanged, exactly for an include task or an unchanged item with ok hosts hidden |
| CustomDefaultSpec.ItemSkippedStep | role_demo/roles/demo_role/callback_plugins/custom_default.py:923-953 | only the trace, state unchanged, exactly when skipped hosts are hidden |
| CustomDefaultSpec.ShownDiffsExactly | role_demo/roles/demo_role/callback_plugins/custom_default.py:614-621 | the diffs shown for a loop are exactly those of the items with a changed, non-empty diff; `ShownDiffsConcat` fixes their order and count |
| CustomDefaultSpec.ShownDiffsConcat | role_demo/roles/demo_role/callback_plugins/custom_default.py:614-621 | the diffs of two halves of the item list are shown one after the other, so each item adds its own diff once, in item order, or nothing |
| CustomDefaultSpec.DiffLinesElements | role_demo/roles/demo_role/callback_plugins/custom_default.py:614-628 | one plain display line per shown diff, in order |
| CustomDefaultSpec.FileDiffStep | role_demo/roles/demo_role/callback_plugins/custom_default.py:593-628 | nothing past the trace and no state change exactly when no diff is shown |
| CustomDefaultSpec.OkStepBanners | role_demo/roles/demo_role/callback_plugins/custom_default.py:660-675 | `v2_runner_on_ok` prints only its task's banner, once when it reaches the check and the task is not the last bannered, and records the task exactly then |
| CustomDefaultSpec.UnreachableStepBanners | role_demo/roles/demo_role/callback_plugins/custom_default.py:712-713 | the same banner discipline for `v2_runner_on_unreachable` |
| CustomDefaultSpec.FailedStepBanners | role_demo/roles/demo_role/callback_plugins/custom_default.py:755-756 | the same for `v2_runner_on_failed` |
| CustomDefaultSpec.SkippedStepBanners | role_demo/roles/demo_role/callback_plugins/custom_default.py:797-802 | the same for `v2_runner_on_skipped` |
| CustomDefaultSpec.ItemOkStepBanners | role_demo/roles/demo_role/callback_plugins/custom_default.py:860-873 | the same for `v2_runner_item_on_ok` |
| CustomDefaultSpec.ItemFailedStepBanners | role_demo/roles/demo_role/callback_plugins/custom_default.py:906-907 | the same for `v2_runner_item_on_failed` |
| CustomDefaultSpec.ItemSkippedStepBanners | role_demo/roles/demo_role/callback_plugins/custom_default.py:944-946 | the same for `v2_runner_item_on_skipped` |
| CustomDefaultSpec.FileDiffStepBanners | role_demo/roles/demo_role/callback_plugins/custom_default.py:614-628 | the same for `v2_on_file_diff`, across all the diffs of a loop |
| CustomDefaultSpec.ResultStep | role_demo/roles/demo_role/callback_plugins/custom_default.py:593-953 | every result handler keeps that banner discipline |
| CustomDefaultSpec.HandleQuiet | role_demo/roles/demo_role/callback_plugins/custom_default.py:477-591 | the per-host start, notify, async poll/ok/failed, include, retry and no-hosts-matched handlers leave the render state as it was and write no banner |
| CustomDefaultSpec.RunStep | role_demo/roles/demo_role/callback_plugins/custom_default.py:477-998 | each event of a task's run, a result of that task or a state-keeping handler, keeps the banner discipline |
| CustomDefaultSpec.UuidRunStep | role_demo/roles/demo_role/callback_plugins/custom_default.py:619-620 | one result sharing the task's uuid, or one state-keeping handler, either leaves the state or records the uuid as bannered, with one banner exactly when it does, opening with the uuid's cached prefix |
| CustomDefaultSpec.BannerAtMostOnce | role_demo/roles/demo_role/callback_plugins/custom_default.py:619-620 | any run of results sharing one task's uuid, interleaved with state-keeping handlers, prints exactly one banner when `_last_task_banner` moves to that uuid and none otherwise, so none if it was the last bannered; every banner opens with the uuid's cached prefix; only `_last_task_banner` can change; when the results carry the started record itself, the banner is the one rendered in the starting state |
| CustomDefaultSpec.TaskBannerPrefix | role_demo/roles/demo_role/callback_plugins/custom_default.py:458-470 | a task banner opens with the task's cached prefix and ` [` |
| CustomDefaultSpec.CachedPrefixInBanner | role_demo/roles/demo_role/callback_plugins/custom_default.py:408-470 | after a handler starts a task with a prefix, the run that follows (results sharing its uuid and state-keeping handlers) prints at most one banner, and every banner it prints opens with that prefix |
| CustomDefaultSpec.AsyncJobId | role_demo/roles/demo_role/callback_plugins/custom_default.py:587-589 | the top-level job id unless it is missing or empty and an `async_result` is present, then the nested one |
| CustomDefaultSpec.RetryStep | role_demo/roles/demo_role/callback_plugins/custom_default.py:972-998 | state unchanged; completes exactly when `retries` and `attempts` are both present; a KeyError on `retries` first; otherwise the trace then the retry message with `retries - attempts` |
| CustomDefaultSpec.RetriesLeftReadsBack | role_demo/roles/demo_role/callback_plugins/custom_default.py:994-995 | the retries-left count is printed in decimal and reads back |
| CustomDefaultSpec.PlayBannerText | role_demo/roles/demo_role/callback_plugins/custom_default.py:241-249 | bare `PLAY` for a blank name, else `PLAY [stripped name]`, with the check-mode marker |
| CustomDefaultSpec.CliLinesExactly | role_demo/roles/demo_role/callback_plugins/custom_default.py:178-182 | the options shown are exactly the truthy ones other than `args`, as `key: value` |
| CustomDefaultSpec.RecapLinesShape | role_demo/roles/demo_role/callback_plugins/custom_default.py:1024-1054 | two recap lines per host, screen-only then log-only, at positions 2i and 2i+1 for host i |
| CustomDefaultSpec.StatsRecapLines | role_demo/roles/demo_role/callback_plugins/custom_default.py:1021-1054 | `PLAY RECAP` right after the trace, then for each host, in the order given, its two lines |
| CustomDefaultSpec.StatsRecap | role_demo/roles/demo_role/callback_plugins/custom_default.py:1021-1054 | the recap lists every processed host exactly once, sorted, each with its summary |
| CustomDefaultSpec.Without | role_demo/roles/demo_role/callback_plugins/custom_default.py:1063-1065 | the custom keys shown are exactly the keys other than `_run`, never more of them than there were; `WithoutConcat` and `WithoutCounts` fix order and count |
| CustomDefaultSpec.WithoutConcat | role_demo/roles/demo_role/callback_plugins/custom_default.py:1063-1065 | skipping `_run` works piece by piece, so the other keys keep their order |
| CustomDefaultSpec.WithoutCounts | role_demo/roles/demo_role/callback_plugins/custom_default.py:1063-1065 | each key other than `_run` stays exactly as many times as it occurs, and `_run` is gone |
| CustomDefaultSpec.WithoutSorted | role_demo/roles/demo_role/callback_plugins/custom_default.py:1063-1065 | skipping `_run` keeps the custom keys in sorted order |
| CustomDefaultSpec.CustomLinesElements | role_demo/roles/demo_role/callback_plugins/custom_default.py:1066-1067 | custom stat line i is `\tkey: value` for key i |
| CustomDefault.CallbackModule.constructor | role_demo/roles/demo_role/callback_plugins/custom_default.py:121-135 | empty render state, DEV_MODE fixed, then the `__init__` trace |
| CustomDefault.CallbackModule.Trace | role_demo/roles/demo_role/callback_plugins/custom_default.py:133-135 | appends `DevTrace` and changes no state |
| CustomDefault.CallbackModule.Validate | role_demo/roles/demo_role/callback_plugins/custom_default.py:1079-1115 | reports an exit exactly when `ValidateInput` does, writing its lines then and nothing otherwise |
| CustomDefault.CallbackModule.PrintTaskBanner | role_demo/roles/demo_role/callback_plugins/custom_default.py:425-475 | writes the trace, the task's banner rendered in the old state, and the optional task path; records the task as bannered |
| CustomDefault.CallbackModule.ShowPendingBanner | role_demo/roles/demo_role/callback_plugins/custom_default.py:619-620 | writes `PendingBanner` and records the task as bannered |
| CustomDefault.TaskStartedIsStep | role_demo/roles/demo_role/callback_plugins/custom_default.py:380-423 | any fields and output that satisfy `TaskStarted` are the state and lines `TaskStartStep` gives, with its status |
| CustomDefault.CallbackModule.TaskStart | role_demo/roles/demo_role/callback_plugins/custom_default.py:380-423 | validates the prefix in DEV_MODE, then caches it, checks the strategy and may print the banner |
| CustomDefault.CallbackModule.RecordStart | role_demo/roles/demo_role/callback_plugins/custom_default.py:405-423 | the part of `_task_start` after validation |
| CustomDefault.CallbackModule.StartWith | role_demo/roles/demo_role/callback_plugins/custom_default.py:268-378 | a handler's trace, then `_task_start` with its prefix; never exits for a non-blank prefix |
| CustomDefault.CallbackModule.OnTaskStart | role_demo/roles/demo_role/callback_plugins/custom_default.py:268-306 | `_task_start` with `TASK`; never exits; state, output and status as `StartStep` says |
| CustomDefault.CallbackModule.OnHandlerTaskStart | role_demo/roles/demo_role/callback_plugins/custom_default.py:335-356 | `_task_start` with `RUNNING HANDLER`; never exits; state, output and status as `StartStep` says |
| CustomDefault.CallbackModule.OnCleanupTaskStart | role_demo/roles/demo_role/callback_plugins/custom_default.py:358-378 | `_task_start` with `CLEANUP TASK`; never exits; state, output and status as `StartStep` says |
| CustomDefault.CallbackModule.OnPlaybookStart | role_demo/roles/demo_role/callback_plugins/custom_default.py:137-185 | trace, PLAYBOOK banner from verbosity 2, CLI dump from verbosity 4, DRY RUN in check mode, i.e. `PlaybookStartLines`; state unchanged |
| CustomDefault.CallbackModule.ShowCliArgs | role_demo/roles/demo_role/callback_plugins/custom_default.py:173-182 | the positional line, then `CliLines` of the entries, by a loop |
| CustomDefault.CallbackModule.OnPlayStart | role_demo/roles/demo_role/callback_plugins/custom_default.py:187-253 | only `_play` changes, to the new play; trace then the `PlayBannerText` banner; both as `PlayStartStep` says |
| CustomDefault.CallbackModule.OnNoHostsMatched | role_demo/roles/demo_role/callback_plugins/custom_default.py:255-266 | trace then `skipping: no hosts matched`; state unchanged |
| CustomDefault.CallbackModule.OnNotify | role_demo/roles/demo_role/callback_plugins/custom_default.py:308-333 | trace, and the NOTIFIED HANDLER line from verbosity 2; state unchanged |
| CustomDefault.CallbackModule.OnRunnerStart | role_demo/roles/demo_role/callback_plugins/custom_default.py:477-503 | trace, and the `[started ...]` line when show_per_host_start; state unchanged |
| CustomDefault.CallbackModule.OnAsyncPoll | role_demo/roles/demo_role/callback_plugins/custom_default.py:505-534 | trace then the ASYNC POLL line; state unchanged |
| CustomDefault.CallbackModule.OnAsyncOk | role_demo/roles/demo_role/callback_plugins/custom_default.py:536-560 | trace then the ASYNC OK line; state unchanged |
| CustomDefault.CallbackModule.OnAsyncFailed | role_demo/roles/demo_role/callback_plugins/custom_default.py:562-591 | trace then the ASYNC FAILED line with `AsyncJobId`; state unchanged |
| CustomDefault.CallbackModule.OnFileDiff | role_demo/roles/demo_role/callback_plugins/custom_default.py:593-628 | nothing past the trace without a diff to show; otherwise the pending banner, then one line per diff; state and output as `FileDiffStep` says |
| CustomDefault.CallbackModule.ShowItemDiffs | role_demo/roles/demo_role/callback_plugins/custom_default.py:614-621 | the loop over the items: the banner before the first shown diff, then each shown diff |
| CustomDefault.CallbackModule.OnRunnerOk | role_demo/roles/demo_role/callback_plugins/custom_default.py:630-689 | the four cases: missing `msg` (KeyError), include task, unchanged and hidden, displayed; state, output and status as `OkStep` says |
| CustomDefault.CallbackModule.OnUnreachable | role_demo/roles/demo_role/callback_plugins/custom_default.py:691-722 | trace, pending banner, `UnreachableBody`; the task is recorded as bannered; as `UnreachableStep` says |
| CustomDefault.CallbackModule.OnFailed | role_demo/roles/demo_role/callback_plugins/custom_default.py:724-774 | trace, pending banner, `FailedBody` with the normalised `ignore_errors`; as `FailedStep` says |
| CustomDefault.CallbackModule.OnSkipped | role_demo/roles/demo_role/callback_plugins/custom_default.py:776-810 | only the trace when skipped hosts are hidden; else pending banner and `SkippedBody`; as `SkippedStep` says |
| CustomDefault.CallbackModule.OnInclude | role_demo/roles/demo_role/callback_plugins/custom_default.py:812-836 | trace then the `included:` line with the item label when there is one; state unchanged |
| CustomDefault.CallbackModule.OnItemOk | role_demo/roles/demo_role/callback_plugins/custom_default.py:838-883 | only the trace for include tasks or hidden unchanged items; else pending banner and the item status line; as `ItemOkStep` says |
| CustomDefault.CallbackModule.OnItemFailed | role_demo/roles/demo_role/callback_plugins/custom_default.py:885-921 | trace, pending banner, `ItemFailedBody`; as `ItemFailedStep` says |
| CustomDefault.CallbackModule.OnItemSkipped | role_demo/roles/demo_role/callback_plugins/custom_default.py:923-953 | only the trace when skipped hosts are hidden; else pending banner and the skipped-item line; as `ItemSkippedStep` says |
| CustomDefault.CallbackModule.OnNoHostsRemaining | role_demo/roles/demo_role/callback_plugins/custom_default.py:955-970 | trace then the NO MORE HOSTS LEFT banner; state unchanged |
| CustomDefault.CallbackModule.OnRetry | role_demo/roles/demo_role/callback_plugins/custom_default.py:972-998 | state, output and status as `RetryStep` says |
| CustomDefault.CallbackModule.OnStats | role_demo/roles/demo_role/callback_plugins/custom_default.py:1000-1077 | trace, PLAY RECAP, the sorted recap, a blank, the custom stats, DRY RUN, i.e. `StatsLines`; state unchanged |
| CustomDefault.CallbackModule.ShowRecap | role_demo/roles/demo_role/callback_plugins/custom_default.py:1023-1054 | the host loop writes `RecapLines` of the sorted hosts |
| CustomDefault.CallbackModule.ShowCustomStats | role_demo/roles/demo_role/callback_plugins/custom_default.py:1059-1074 | CUSTOM STATS banner, every key but `_run` in sorted order, then RUN, then a blank |
| CustomDefault.CallbackModule.ShowCustomKeys | role_demo/roles/demo_role/callback_plugins/custom_default.py:1063-1067 | the key loop writes `CustomLines` of the keys other than `_run` |
| CustomDefault.CallbackModule.DispatchResult | role_demo/roles/demo_role/callback_plugins/custom_default.py:593-953 | a result event runs its handler, with the state, output and status `HandleResult` gives |
| CustomDefault.CallbackModule.DispatchQuiet | role_demo/roles/demo_role/callback_plugins/custom_default.py:477-591 | a state-keeping event runs its handler, with the effect `HandleQuiet` gives |
| CustomDefault.CallbackModule.DispatchOther | role_demo/roles/demo_role/callback_plugins/custom_default.py:137-378 | a playbook, play or task start, or an end-of-run report, runs its handler with the effect `HandleOther` gives |
| CustomDefault.CallbackModule.Dispatch | role_demo/roles/demo_role/callback_plugins/custom_default.py:137-1077 | any event runs its handler, leaving exactly the state, output and status `Handle` gives, so the run lemmas about `Replay` describe the object |
| Tracer.TracedName | playbooks/07_roles/roles/demo_role/callback_plugins/tracer_callback.py:96-98 | a recovered name is one whose trace line is exactly the given line |
| Tracer.TracedNameRoundTrip | playbooks/07_roles/roles/demo_role/callback_plugins/tracer_callback.py:96-98 | the method name reads back off its trace line |
| Tracer.Wrap | playbooks/07_roles/roles/demo_role/callback_plugins/tracer_callback.py:77-103 | the wrapped call returns the body's result; with TRACE, one trace line then exactly the body's output; without, exactly the body's output (`WrapTransparent` and `WrapPrintsOnce` state what follows) |
| Tracer.WrapPrintsOnce | playbooks/07_roles/roles/demo_role/callback_plugins/tracer_callback.py:96-98 | the wrapper adds one `print()` with TRACE and none without |
| Tracer.WrapTransparent | playbooks/07_roles/roles/demo_role/callback_plugins/tracer_callback.py:87-101 | whatever TRACE says, the call returns the body's result, its output ends with all of the body's output, and the only lines added in front are `print()` lines |
| Tracer.WrapUntraced | xtra/roles/tracer_role/callback_plugins/tracer_callback.py:110-115 | with TRACE unset, a decorated call is the bare call |
| DemoRoleTracer.NotifyOutput | playbooks/07_roles/roles/demo_role/callback_plugins/tracer_callback.py:354-364 | the notify handler writes the trace line (when TRACE) then `Handler notified for host.` |
| DemoRoleTracer.HandlerTaskStartOutput | playbooks/07_roles/roles/demo_role/callback_plugins/tracer_callback.py:366-376 | the handler-start handler writes the trace line (when TRACE) then `Handler started.` |
| DemoRoleTracer.EmptyHandlerOutput | playbooks/07_roles/roles/demo_role/callback_plugins/tracer_callback.py:378-391 | every other handler writes its trace line when TRACE, and nothing else |
| DemoRoleTracer.OnePrintPerCall | playbooks/07_roles/roles/demo_role/callback_plugins/tracer_callback.py:87-101 | exactly one `print()` per call with TRACE, none without, and it names the method |
| DemoRoleTracer.TraceIdentifiesMethod | playbooks/07_roles/roles/demo_role/callback_plugins/tracer_callback.py:98 | two calls with the same trace line are calls of the same method |
| DemoRoleTracer.TracedAsShipped | playbooks/07_roles/roles/demo_role/callback_plugins/tracer_callback.py:74-98 | with the module's `TRACE = True`, every call prints exactly one line, and it names the method |
| XtraTracer.Counterpart | xtra/roles/tracer_role/callback_plugins/tracer_callback.py:55-56 | no method of this copy corresponds to the cleanup-task handler |
| XtraTracer.SameAsDemoRoleCopy | xtra/roles/tracer_role/callback_plugins/tracer_callback.py:91-117 | every handler of this copy writes and returns what the same-named handler of the other copy does |
| XtraTracer.OnePrintPerCall | xtra/roles/tracer_role/callback_plugins/tracer_callback.py:110-112 | exactly one `print()` per call with TRACE, none without |
| XtraTracer.TracedAsShipped | xtra/roles/tracer_role/callback_plugins/tracer_callback.py:88-112 | with the module's `TRACE = True`, every call prints exactly one line, and it names the method |
| XtraTracer.NoCleanupHandler | xtra/roles/tracer_role/callback_plugins/tracer_callback.py:55-56 | no method is named `v2_playbook_on_cleanup_task_start` |
| CustomAggregate.ReplayCounts | role_demo/roles/demo_role/callback_plugins/custom_aggregate.py:19-57 | after any run, the counter is one more than the task starts seen, and each call wrote two lines |
| CustomAggregate.ReplayNumbersTasks | role_demo/roles/demo_role/callback_plugins/custom_aggregate.py:39-57 | call j wrote what its handler writes with the counter at one more than the task starts before it |
| CustomAggregate.KthTaskNumbered | role_demo/roles/demo_role/callback_plugins/custom_aggregate.py:55 | the k-th task start opens with `This is task k.` |
| CustomAggregate.TaskNumberReadsBack | role_demo/roles/demo_role/callback_plugins/custom_aggregate.py:55 | two task-start lines that look the same carry the same number |
| CustomAggregate.CallbackModule.constructor | role_demo/roles/demo_role/callback_plugins/custom_aggregate.py:19-21 | the counter starts at 1 and nothing is written |
| CustomAggregate.CallbackModule.OnPlayStart | role_demo/roles/demo_role/callback_plugins/custom_aggregate.py:23-40 | the two play lines; the counter is unchanged; both as `Step` says for a play start |
| CustomAggregate.CallbackModule.OnTaskStart | role_demo/roles/demo_role/callback_plugins/custom_aggregate.py:42-57 | the task number and action lines, with the old counter, then the counter goes up by one; both as `Step` says for a task start |

## Left out

- Colours, `hostcolor`'s and `colorize`'s padding, and the `C.COLOR_*` settings are dropped. Only the text and the channel (normal, stderr, screen only, log only) are kept.
- CustomDefaultSpec.HostRecap: gives each counter as `name=N` without `colorize`'s padding to four columns, and the host without `hostcolor`'s padding.
- `_clean_results`, `_dump_results`, `_get_diff`, `_get_item_label`, `host_label` and `_run_is_verbose` belong to the Ansible base class, which is not part of this model. Their outputs are fields of `Objects.TaskResult`.
- `_process_items`, `_handle_warnings`, `_handle_exception` and `_print_task_path` are also inherited, and are not part of this model. The model records each call to them as one `Helper` line, in the place it is made.
- The five debug `print()` calls in `v2_runner_on_ok` are kept in number and order. The object reprs they print are not modelled.
- Validation of Ansible objects (task, play, result, host, handler, stats, included file) always passes, because the model's types guarantee the class. Only the `prefix` check of `_task_start` can fail, so only it is modelled as a validation.
- In `v2_runner_on_failed`, the DEV_MODE check of `ignore_errors` always passes, because `ignore_errors` is typed `Option<bool>`.
- The calling frame that `inspect` yields is reduced to a `CallSite` (function name and line). `sys.exit` becomes the `Exited(1)` status.
- `_peek_inside` is only reached from commented-out code, so it is not modelled.
- PYTHON_VERSION and UNICODE_TYPE are taken to be Python 3's `str`.
- `context.CLIARGS` becomes a `CliArgs` parameter.
- The options that `get_option` reads become fields of `Options`.
- The display's verbosity becomes a field of `Config`.
- `add_internal_fqcns(('free', 'host_pinned'))` becomes a set parameter.
- The truthiness of `C.DISPLAY_ARGS_TO_STDOUT`, which the plugin assigns the string 'false', is modelled exactly: the args are shown unless the task is `no_log`.
- The tracer plugins' `v2_playbook_on_vars_prompt` takes arguments its `pass` body never reads, so the model does not carry them.
- The tracer's display colour and `custom_aggregate.py`'s colours are dropped.
- `is_conditional` is accepted by `CustomAggregate.CallbackModule.OnTaskStart` and, as in the source, unused.
- Interleaving with Ansible's worker processes is not modelled. Each handler call is one atomic step.
- Tracer.Wrap: `Traced<R>` has no failure case. An exception raised by a wrapped body is not modelled on its own; it passes through the wrapper only when it is encoded in the result type `R`. The tracer bodies modelled here never raise.
- CustomDefaultSpec.BannerAtMostOnce: covers results sharing a task's uuid mixed with the handlers that keep the render state. A run that also holds another task start, a play start, a playbook start, `NO MORE HOSTS LEFT` or the stats report falls outside it, because those change the pending task or print banners of their own. The same holds for `CachedPrefixInBanner`.
- `CustomDefault.CallbackModule.Dispatch` stands for Ansible's own callback dispatch, which is not part of this model. How that dispatch reacts to an exception a handler lets through is not modelled; the status is returned.
