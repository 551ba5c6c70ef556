# InfraGuardian for Dokploy: a verified model of its monitoring core

InfraGuardian watches the Docker Compose deployments ("composes") of a Dokploy
server and answers questions about them through a chat model. This project
models three parts of it in Dafny and proves properties of each.

- **`Monitoring`** (`service_monitor.dfy`) models the `ServiceMonitor` class.
  - The class holds the `previous_states` map, the running flag, the loop-task
    slot and the callback.
  - One monitoring cycle compares each compose's status with the status known
    before it and reports a transition. It notifies a subscriber that may
    raise, and then records the new status.
  - The module also covers the health rule, the unhealthy filter, the status
    histogram of the statistics, the start/stop guards and the per-cycle
    summaries of the loop.
- **`Dokploy`** (`dokploy_client.dfy`) models the `DokployClient`.
  - It covers the constructor's key check and headers, and the URL each
    request uses.
  - `get_all_composes` flattens projects → environments → composes and stamps
    each compose with four provenance fields.
  - `get_compose_health` shapes one summary record.
- **`Llm`** (`gpt_oss_client.dfy`) models the `GPTOSSClient`.
  - `_format_context` builds the context text line by line.
  - `ask` assembles two or three messages and turns a failure into an error
    reply.
  - `analyze_compose_issue` builds the diagnosis prompt.
- **`Values`** (`values.dfy`) holds the shared Python value model:
  - `None`, booleans, integers, strings and nested containers;
  - Python truthiness;
  - `dict.get` with a default;
  - `str()` of integers, with a proved round trip.
- **`Wrappers`** and **`Seqs`** (`wrappers.dfy`) hold `Option` and `Result`, the
  list-comprehension filter, `"\n".join` and line counting.

How the model is built:

- **The outside world is a parameter.** HTTP answers, the chat model and clock
  readings are parameters, so the model is deterministic.
  - A fetch is a `Result`, where `Err` stands for the exception it raised.
  - The chat model is a function from a message list to a reply or an error.
  - A cycle's timestamps are a function from the compose's position to an
    opaque string.
- **Loops stay loops.** Every `for` and `while` loop of the source is a Dafny
  `for` or `while` loop. Each one is proved equal to a specification function,
  and the properties are proved as lemmas about those functions. The list
  comprehensions of `get_unhealthy_composes` and of the loop's change count
  are the recursive function `Seqs.Filter`.
- **Dicts and Python values.**
  - A Python dict that is only looked up by key is a `map`.
  - A dict whose insertion order is observable is a sequence of pairs: the
    status histogram, the `status_distribution` entry of a context.
  - Compose ids and statuses are Python values (`Values.Value`), because the
    source reads them with `dict.get` and they may be `None`.

## Model

| member | source | states |
|---|---|---|
| Values.Get | src/monitor/service_monitor.py:52-54 | `dict.get(key, default)`: a present key yields its value, even `None`; an absent key yields the default |
| Values.NatText | src/llm/gpt_oss_client.py:92 | `str(n)` of a count is a non-empty run of decimal digits with no leading zero |
| Values.NatTextRoundTrip | src/llm/gpt_oss_client.py:92 | reading the digits of `str(n)` back gives n, so the count in "Composes disponibles: n" is exact |
| Values.NatTextInjective | src/llm/gpt_oss_client.py:104 | two different counts never print the same, so the overflow line determines k |
| Seqs.Filter | src/monitor/service_monitor.py:128-131 | a list comprehension keeps exactly the elements satisfying the condition and is no longer than its input |
| Seqs.FilterConcat | src/monitor/service_monitor.py:128-131 | filtering a concatenation is the concatenation of the filtered parts, so order is preserved |
| Seqs.FilterSnoc | src/monitor/service_monitor.py:146 | appending one element adds it to the filter's result exactly when it satisfies the condition |
| Seqs.JoinSnoc | src/llm/gpt_oss_client.py:117 | joining one more part appends the separator and that part |
| Seqs.JoinPrefix | src/llm/gpt_oss_client.py:117 | joining no parts gives ""; a joined text starts with its first part |
| Seqs.CountConcat | src/llm/gpt_oss_client.py:87-117 | the lines starting with a prefix in a concatenation are those of the two parts added together |
| Seqs.CountTagged | src/llm/gpt_oss_client.py:101 | among lines that all start with one line start, all or none start with another, according to whether the two are equal |
| Dokploy.NewClient | src/integrations/dokploy_client.py:15-27 | construction succeeds iff the API key is set and non-empty, else it fails with the missing-key message; the base URL defaults; the headers carry the key under `x-api-key`, JSON content type and accept, and no bearer token |
| Dokploy.BuildRequest | src/integrations/dokploy_client.py:29-39 | the URL is the base URL followed by the endpoint; verb, headers and parameters are passed through |
| Dokploy.ProjectsRequest | src/integrations/dokploy_client.py:45-47 | the project list is fetched with a GET of `/project.all`, with no parameters and the client's headers |
| Dokploy.HealthRequests | src/integrations/dokploy_client.py:55-61 | the health check issues two GETs, `/compose.one` then `/compose.loadServices`, each with `composeId` as its only parameter |
| Dokploy.ProvenanceOf | src/integrations/dokploy_client.py:99-111 | the four stamped values are the project's and environment's names, defaulting to "Unknown", and their ids, defaulting to `None` |
| Dokploy.Stamp | src/integrations/dokploy_client.py:108-111 | stamping adds exactly the four provenance keys, with the provenance values, and keeps every other field |
| Dokploy.StampAll | src/integrations/dokploy_client.py:106-112 | every compose of an environment is stamped, one for one, in order |
| Dokploy.GetAllComposes | src/integrations/dokploy_client.py:93-114 | the three nested loops return exactly the flattened, stamped list `AllComposes` |
| Dokploy.StampEnvironment | src/integrations/dokploy_client.py:104-112 | the innermost loop returns the environment's composes stamped with its provenance, defaulting a missing "compose" to no composes |
| Dokploy.FetchAllComposes | src/integrations/dokploy_client.py:93-95 | a failed project fetch propagates its error; otherwise the result is the flattened list |
| Dokploy.AllComposesLength | src/integrations/dokploy_client.py:93-114 | the output holds exactly as many composes as all environments together |
| Dokploy.EnvironmentComposesLength | src/integrations/dokploy_client.py:103-112 | a project contributes exactly as many composes as its environments hold |
| Dokploy.AllComposesConcat | src/integrations/dokploy_client.py:98-112 | flattening two project lists one after the other is the two flat lists one after the other |
| Dokploy.EnvironmentComposesConcat | src/integrations/dokploy_client.py:103-112 | the same holds for the environments of one project |
| Dokploy.AllComposesSingle | src/integrations/dokploy_client.py:98-112 | one project contributes its environments' composes |
| Dokploy.EnvironmentComposesSingle | src/integrations/dokploy_client.py:103-112 | one environment contributes its composes stamped with its project and itself |
| Dokploy.ProjectOrder | src/integrations/dokploy_client.py:98-112 | a project's composes come after those of the earlier projects and before those of the later ones |
| Dokploy.EnvironmentOrder | src/integrations/dokploy_client.py:103-112 | an environment's composes come after those of the earlier environments and before those of the later ones |
| Dokploy.NoEnvironmentsNoComposes | src/integrations/dokploy_client.py:103 | a project without "environments" contributes nothing |
| Dokploy.NoComposeKeyNoComposes | src/integrations/dokploy_client.py:106 | an environment without "compose" contributes nothing |
| Dokploy.HealthSummary | src/integrations/dokploy_client.py:124-130 | the summary echoes the compose id, keeps the service list unchanged, counts it, and takes name and status from the compose record, defaulting to "Unknown" and "unknown" |
| Dokploy.GetComposeHealth | src/integrations/dokploy_client.py:116-130 | succeeds iff both fetches succeed; a failure of the compose fetch is reported before one of the services fetch; success yields the summary |
| Monitoring.ChangeFlag | src/monitor/service_monitor.py:58 | the stored `status_changed` is truthy iff the prior status is truthy and differs from the current one; a falsy prior (`None`, `""`) is stored itself, otherwise the comparison's boolean |
| Monitoring.StatesAfter | src/monitor/service_monitor.py:78 | after a cycle the map's keys are the old keys plus the snapshot's ids; nothing is removed |
| Monitoring.LatestBefore | src/monitor/service_monitor.py:57 | finds the latest earlier occurrence of an id within the snapshot, or states there is none |
| Monitoring.StatesAfterPrefix | src/monitor/service_monitor.py:57-78 | the status compose i is compared with is that of the latest earlier occurrence of its id in the snapshot, else the old map's |
| Monitoring.StatesAfterCycle | src/monitor/service_monitor.py:78 | afterwards a snapshot id maps to the status of its last occurrence; any other id keeps its entry and value |
| Monitoring.ResultsShape | src/monitor/service_monitor.py:50-80 | one result per compose, in snapshot order, carrying its id, name, status, project name and clock reading, with the "Unknown"/"unknown" defaults |
| Monitoring.TransitionAgainstPrior | src/monitor/service_monitor.py:57-65 | `previous_status` is the pre-update status; `status_changed` is the value Python's `and` gives for it, and is truthy iff that status is truthy and differs from the current status |
| Monitoring.FirstObservationUnchanged | src/monitor/service_monitor.py:57-58 | an id with no entry and no earlier occurrence is never flagged changed: its previous status and its `status_changed` are both `None` |
| Monitoring.FalsyPriorUnchanged | src/monitor/service_monitor.py:58 | a missing, `None` or empty-string prior status is never a change, and `status_changed` then holds that prior itself |
| Monitoring.QuietAt | src/monitor/service_monitor.py:57-78 | once the map holds a consistent snapshot, each of its composes compares equal |
| Monitoring.SecondCycleQuiet | src/monitor/service_monitor.py:57-78 | a second cycle on the same consistent snapshot reports no change at all |
| Monitoring.NothingChanged | src/monitor/service_monitor.py:146 | when no result changed, the changed filter is empty |
| Monitoring.DuplicateIdUnsettled | src/monitor/service_monitor.py:51-78 | when the last occurrence of an id in a snapshot has a truthy status that differs from its first occurrence's, a second cycle over the snapshot reports the first occurrence as changed, with the last occurrence's status as its previous status |
| Monitoring.DuplicateIdNeverSettles | src/monitor/service_monitor.py:51-78 | an instance: one id listed with "x" and then "y" is reported changed again on a second cycle |
| Monitoring.RunningThenError | src/monitor/service_monitor.py:57-65 | "running" then "error" across two cycles gives one change, with `status_changed` `True` and previous status "running" |
| Monitoring.Notify | src/monitor/service_monitor.py:71-75 | one more result is delivered iff it changed and a subscriber is registered, and counts as failed iff the callback raised on it |
| Monitoring.CycleStep | src/monitor/service_monitor.py:51-80 | one loop step appends the observation against the current map and overrides the map at that id |
| Monitoring.KeySeq | src/monitor/service_monitor.py:198-201 | lists the histogram's keys in its order |
| Monitoring.FirstSeen | src/monitor/service_monitor.py:198-201 | lists the snapshot's statuses in order of first appearance, each once |
| Monitoring.BumpSum | src/monitor/service_monitor.py:201 | one increment adds one to the histogram's total |
| Monitoring.BumpCount | src/monitor/service_monitor.py:201 | an increment adds one to its status's count and leaves every other count alone |
| Monitoring.BumpKeys | src/monitor/service_monitor.py:201 | an increment keeps a known status in its place and appends a new one |
| Monitoring.HistogramCounts | src/monitor/service_monitor.py:198-207 | the histogram lists each status once, in order of first appearance; each count is the number of composes with that status; the counts sum to the number of composes |
| Monitoring.Summarize | src/monitor/service_monitor.py:145-151 | the summary's total is the number of results; changed is at most total, and zero iff no result changed |
| Monitoring.Unhealthy | src/monitor/service_monitor.py:128-131 | keeps exactly the results whose status is not "done", "running" or "idle" |
| Monitoring.OnlyErrorUnhealthy | src/monitor/service_monitor.py:128-133 | of the statuses "done", "error" and "idle", only the "error" result is kept |
| Monitoring.RunDeliveriesChanged | src/monitor/service_monitor.py:71-75 | over a run of cycles only changed results reach the callback, nothing does without one, and every failure is a delivery on which the callback raised |
| Monitoring.RunStep | src/monitor/service_monitor.py:139-146 | one more cycle extends a run's summaries, map, deliveries and failed deliveries by exactly that cycle's |
| Monitoring.FailedFetchIsInert | src/monitor/service_monitor.py:84-86 | a cycle whose fetch failed leaves the map unchanged and is summarised as 0 composes, 0 changes |
| Monitoring.SummariesBounded | src/monitor/service_monitor.py:139-146 | a run of cycles yields one summary per cycle, each with changed at most total |
| Monitoring.ServiceMonitor.constructor | src/monitor/service_monitor.py:18-39 | the monitor starts with the given interval and callback (60 seconds and none by default), an empty map, not running, no task and nothing delivered |
| Monitoring.ServiceMonitor.CheckAllComposes | src/monitor/service_monitor.py:41-86 | a cycle returns the cycle's results and advances the map; a failed fetch returns no results and leaves the map alone; deliveries and failures grow by the cycle's |
| Monitoring.ServiceMonitor.ObserveAll | src/monitor/service_monitor.py:50-82 | the loop over a fetched snapshot returns `Results` and leaves the map at `StatesAfter`, notifying each changed result in order |
| Monitoring.ServiceMonitor.CheckCompose | src/monitor/service_monitor.py:52-80 | one compose compares against the map before its update, is notified if changed, and then overrides its id's entry, whether or not the callback raised |
| Monitoring.ServiceMonitor.Deliver | src/monitor/service_monitor.py:71-75 | the callback receives the result iff it changed and a subscriber is registered; a raise is recorded and swallowed |
| Monitoring.ServiceMonitor.CheckComposeHealth | src/monitor/service_monitor.py:88-117 | the record `get_compose_health` builds from its two answers, echoing the given id, gains `healthy` iff its status is "done" and there is at least one service; a failure of either fetch (the compose's first) yields the fallback record with the id and that error, reported not healthy |
| Monitoring.ServiceMonitor.GetUnhealthyComposes | src/monitor/service_monitor.py:119-133 | returns the non-nominal results of a full cycle, in order, and advances the map as that cycle does |
| Monitoring.ServiceMonitor.GetMonitoringStats | src/monitor/service_monitor.py:189-209 | a failed fetch propagates; otherwise the total, the flag, the interval, the status histogram and the number of tracked ids, with the map untouched |
| Monitoring.ServiceMonitor.Start | src/monitor/service_monitor.py:163-171 | while running, a call changes nothing; otherwise it sets the flag and creates one task |
| Monitoring.ServiceMonitor.Stop | src/monitor/service_monitor.py:173-187 | while stopped, a call changes nothing; otherwise it clears the flag and cancels the task |
| Monitoring.ServiceMonitor.MonitorLoop | src/monitor/service_monitor.py:135-161 | while running, one cycle per fetch outcome, each summarised, with the map, the deliveries and the failed deliveries after all of them; a failed fetch does not stop the loop; a stopped monitor runs no cycle and changes nothing |
| Monitoring.ServiceMonitor.MonitorCycle | src/monitor/service_monitor.py:142-146 | one pass of the loop runs a cycle and summarises it by its number of results and of changed results, with the cycle's effect on the map and the deliveries |
| Llm.ComposeLines | src/llm/gpt_oss_client.py:97-101 | one line per compose, in order, each "  - name (project): status" |
| Llm.DistributionLines | src/llm/gpt_oss_client.py:114-115 | one line per distribution entry, in the dict's order, each "    - status: count" |
| Llm.FormatContext | src/llm/gpt_oss_client.py:85-117 | the method returns exactly `ContextText`, the joined composes and stats lines |
| Llm.ComposesSection | src/llm/gpt_oss_client.py:90-104 | the composes branch appends the count line, the header, the capped details and the overflow line, as `ComposesPart` says |
| Llm.ComposeDetails | src/llm/gpt_oss_client.py:97-101 | the loop over the shown composes yields their detail lines in order |
| Llm.StatsSection | src/llm/gpt_oss_client.py:107-115 | the stats branch appends the header, the total line and the distribution, as `StatsPart` says |
| Llm.ComposeLinesTagged | src/llm/gpt_oss_client.py:101 | every compose line starts with "  - " |
| Llm.DistributionLinesTagged | src/llm/gpt_oss_client.py:115 | every distribution line starts with "    - " |
| Llm.OverflowPartCount | src/llm/gpt_oss_client.py:103-104 | the overflow part holds one line iff there are more than ten composes |
| Llm.ComposeLinesCount | src/llm/gpt_oss_client.py:97-101 | the compose lines contribute one "  - " line per compose and no other kind |
| Llm.ComposesPartCount | src/llm/gpt_oss_client.py:90-104 | counts, line start by line start, what the composes branch contributes |
| Llm.StatsPartCount | src/llm/gpt_oss_client.py:107-115 | counts, line start by line start, what the stats branch contributes |
| Llm.ContextCount | src/llm/gpt_oss_client.py:87-115 | the lines of each kind are those of the composes branch plus those of the stats branch |
| Llm.FormatStartsWithCount | src/llm/gpt_oss_client.py:90-92 | one "Composes disponibles: " line iff there is a "composes" entry; then it comes first and the text starts with it, showing the count |
| Llm.FormatComposeItemCount | src/llm/gpt_oss_client.py:95-101 | exactly min(n, 10) compose lines, and none without a "composes" entry |
| Llm.FormatActiveHeader | src/llm/gpt_oss_client.py:95-96 | the "Composes activos:" header appears once iff there is at least one compose |
| Llm.FormatComposeDetails | src/llm/gpt_oss_client.py:95-101 | right after the header come the lines of the first min(n, 10) composes, in order |
| Llm.FormatOverflow | src/llm/gpt_oss_client.py:103-104 | "  ... y k más" with k = n - 10 appears once iff n > 10, right after the ten detail lines |
| Llm.FormatStatsCount | src/llm/gpt_oss_client.py:107-110 | one stats header and one total line iff there is a "stats" entry |
| Llm.FormatDistributionCount | src/llm/gpt_oss_client.py:112-115 | a distribution header iff there is a distribution, and one line per entry |
| Llm.FormatStatsLayout | src/llm/gpt_oss_client.py:107-110 | the stats header follows the composes lines, then the total line, reading 0 when the total is missing |
| Llm.FormatDistributionOrder | src/llm/gpt_oss_client.py:112-115 | the distribution header and the entries' lines, in the dict's order, end the text |
| Llm.FormatEmpty | src/llm/gpt_oss_client.py:87-117 | a context with neither key formats as "" |
| Llm.MessagesFor | src/llm/gpt_oss_client.py:66-74 | 3 messages if the context is truthy, else 2; the system prompt first, the question last, and the context message in between only when the context is truthy |
| Llm.BuildMessages | src/llm/gpt_oss_client.py:66-74 | the appends build exactly `MessagesFor` |
| Llm.ErrorReply | src/llm/gpt_oss_client.py:83 | the error reply is the fixed head, the error's text and the fixed hint, at fixed positions |
| Llm.Ask | src/llm/gpt_oss_client.py:50-83 | the model's reply to those messages is returned as is; a failure yields the error reply for its message |
| Llm.IssuePromptSplit | src/llm/gpt_oss_client.py:136-150 | the prompt is the header, the optional logs section and the fixed request |
| Llm.IssuePromptNamesCompose | src/llm/gpt_oss_client.py:136-140 | the prompt always opens with the intro, the compose name and the status label and status, at fixed positions |
| Llm.IssuePromptLogs | src/llm/gpt_oss_client.py:142-150 | the logs section sits between header and request iff the logs are a non-empty text; otherwise nothing does; the prompt ends with the request |
| Llm.IssuePrompt | src/llm/gpt_oss_client.py:136-150 | the `+=` steps build exactly `IssuePromptText` |
| Llm.AnalyzeComposeIssue | src/llm/gpt_oss_client.py:119-152 | the answer is what `ask` gives for the prompt with no context |

## Left out

- Asynchronous execution: `asyncio` tasks, `create_task`, cancellation, awaiting and `asyncio.sleep`. Methods run to completion. `MonitorLoop` takes the cycles' fetch outcomes as a sequence, and the interval is only stored. The loop's `CancelledError` exit is not modelled; `Stop` and the loop do not interleave.
- Logging: the log lines of every method, including the loop's summary messages. `Summarize` models the two counts that are logged.
- `os.getenv`, `load_dotenv` and the `GPTOSSClient` constructor: the model name, base URL, key and `temperature` only configure the foreign chat client.
- `datetime.now().isoformat()`: timestamps are opaque strings supplied by a clock parameter.
- HTTP through `aiohttp` and the chat call `ainvoke`: their outcomes are parameters. `raise_for_status` and JSON decoding appear only as the `Err` of a fetch.
- The other endpoint wrappers of `DokployClient` (one project, start, stop, deploy, deployments, domains). Each is one `_request` call. `BuildRequest` models the URL, headers and query parameters only: the JSON body that `start_compose`, `stop_compose` and `deploy_compose` send is not modelled.
- The Telegram bot, `main.py`, the two test scripts and the `__main__` blocks: UI, entry points and manual scripts against live services.
- Monitoring.ServiceMonitor.MonitorLoop: the loop re-reads the running flag, which only `Stop` in another task could clear. The model has no interleaving, so the loop runs every given cycle or, when stopped, none.
- Dokploy.GetAllComposes: the source mutates each compose dict in place and appends the same object. The model returns stamped copies, so aliasing between the returned list and the fetched projects is not captured.
- JSON shapes are typed. A project's `environments` and an environment's `compose` are either absent or lists, and a context's `composes` is a list of dicts. The errors Python would raise on other shapes are not modelled.
- Composite ids and statuses: `Values.Value` keeps a nested list or dict as its `str()` text and treats it like any other value, which differs from Python in three ways.
  - The model uses such a compose id as a map key. In Python, `previous_states.get` raises `TypeError` because the key is unhashable. The cycle then returns `[]`, but the map updates and notifications of the earlier composes of that snapshot have already happened. The model returns a full result list instead.
  - A list or dict status raises in the histogram of `get_monitoring_stats`, and that error propagates. `StatusHistogram` counts it instead.
  - Two dicts with equal contents in a different key order are equal in Python. The model compares their texts, so it reports a change between them.
- `Values.Value` does not reproduce Python's `True == 1` equality between booleans and integers, or floats. Nested lists and dicts are kept as their `str()` text, and no member looks inside them.
- `check_interval` is not validated by the source, and the model does not validate it either.
- Monitoring.SecondCycleQuiet: requires that no compose id occurs twice in the snapshot with two different statuses. Without this condition the second cycle can still report a change: `DuplicateIdUnsettled` shows it does whenever the last occurrence's status is truthy and differs from the first occurrence's.
- Llm.FormatContext: `_format_context` is one method in the source. The model splits its two branches and its loop into helper methods, which append the same lines in the same order.
