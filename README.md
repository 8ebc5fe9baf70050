# TaskPilot core, modelled in Dafny

TaskPilot is a task manager: a FastAPI server stores tasks (title, description, due
date, priority, tags, sub-tasks called "mini-tasks") and asks a text generator for
project summaries and recommendations. A React client edits the tasks. This project
models the logic underneath, and proves properties about it:

- `redis_cache.dfy` (module `Cache`): the response cache. Keys are derived from an
  endpoint and a JSON object: serialise with sorted keys, take the MD5 hex digest,
  format `ai_cache:{endpoint}:{digest}`. The backend is a table from key to (value,
  expiry). The `RedisCache` class holds a `connected` flag and that table. Time, and
  whether the backend fails during a call, are parameters. Every operation fails open.
- `gpt_agent.dfy` (module `GptAgent`): the prompt builders. A task's detail lines are
  built by appending, step by step. Prompts are split into overdue, high-priority,
  other-pending and completed sections, or are one of the fixed texts for edge cases.
  Text is modelled as structured lines and blocks, not wording.
- `agent_api.dfy` (module `AgentApi`): the metadata the two agent endpoints return,
  the loop that collects overdue ids, and how the endpoints hand tasks to the builders.
  The endpoints are modelled as written: the builders receive already-decoded tags and
  sub-tasks, so their prompts never show them (see "## Findings").
- `task_service.dfy` (module `TaskService`): create-time validation and normalisation,
  partial update, lookup and delete. The repository is a map from id to task row.
- `task_component.dfy`, `add_task_form.dfy`, `main_page.dfy`: the client's data
  computations. These are the mini-task, tag and description edits of a task card, and
  its priority colour. Then the new-task form's tag list and request body. Then the
  sort order of the task list.
- `task_model.dfy`, `strings.dfy`, `seqs.dfy`, `wrappers.dfy`: the task record,
  whitespace stripping and string order, list comprehensions (`Filter`, `Map`), and
  `Option`/`Result`.

Pure code is modelled as functions with lemmas. Code that appends in loops is modelled
as methods proved equal to those functions. The cache table and the task repository are
classes whose methods update their fields.

The rounded `completion_rate` is 100.0 exactly when at least 99.95% of the tasks are
done (`AgentApi.RateHundredIff`). So it is not "100 exactly when every task is
completed": 3999 done out of 4000 already reports 100.0 (`AgentApi.RateHundredNotAllDone`).

## Model

| member | source | states |
|---|---|---|
| Cache.SortByKey | app/cache/redis_cache.py:40 | the serialised entries are a permutation of the dict's entries |
| Cache.SortByKeyAscending | app/cache/redis_cache.py:40 | for a dict with distinct keys, the sorted entries have strictly ascending keys |
| Cache.InsertAscending | app/cache/redis_cache.py:40 | inserting an entry with a new key into key-ascending entries keeps them key-ascending |
| Cache.AscendingUnique | app/cache/redis_cache.py:40 | two key-ascending entry lists holding the same entries are equal |
| Cache.SortIgnoresInsertionOrder | app/cache/redis_cache.py:40 | dicts equal as maps, in any insertion order, serialise the same once keys are sorted |
| Cache.CacheKey | app/cache/redis_cache.py:37-42 | the key is `ai_cache:`, then the endpoint, then `:`, then the digest of the key-sorted dict, with those lengths |
| Cache.CacheKeyIgnoresInsertionOrder | app/cache/redis_cache.py:37-42 | dicts equal as maps get the same cache key |
| Cache.CacheKeySeparatesEndpoints | app/cache/redis_cache.py:42 | with 32-character digests, equal keys imply equal endpoints and equal digests |
| Cache.Lookup | app/cache/redis_cache.py:51-58 | a GET hits exactly when the key holds an unexpired entry, and returns its value |
| Cache.Put | app/cache/redis_cache.py:73-77 | SETEX stores the value under the key, expiring `redis_ttl` (3600 s) later, and leaves every other key as it was |
| Cache.Remove | app/cache/redis_cache.py:93 | DEL removes the key and keeps every other key |
| Cache.RemoveCacheKeys | app/cache/redis_cache.py:106-108 | clearing keeps exactly the keys without the `ai_cache:` prefix, with their entries |
| Cache.LiveCacheKeys | app/cache/redis_cache.py:122 | `KEYS ai_cache:*` returns exactly the prefixed keys with unexpired entries |
| Cache.PutThenLookup | app/cache/redis_cache.py:64-80 | after a write, the key reads back the value until the TTL has passed, and misses from then on |
| Cache.PutIsolated | app/cache/redis_cache.py:70-77 | a write does not change how any other key reads; a second write to the key replaces the first wholesale |
| Cache.RemoveThenLookup | app/cache/redis_cache.py:92-94 | after a delete the key misses, and other keys read as before |
| Cache.RemoveCacheKeysEffect | app/cache/redis_cache.py:106-110 | after clearing, no cache key is left, prefixed keys miss, and other keys read as before |
| Cache.PutCountsOne | app/cache/redis_cache.py:122-125 | a write under a new prefixed key raises the live key count by one |
| Cache.RedisCache.constructor | app/cache/redis_cache.py:14-35 | the cache is connected exactly when the ping succeeded; the backend table is as given |
| Cache.RedisCache.Get | app/cache/redis_cache.py:44-62 | without a backend, or on a failure, a miss; otherwise the lookup of the derived key |
| Cache.RedisCache.Set | app/cache/redis_cache.py:64-84 | returns true exactly when connected and no failure; then exactly one entry is written under the derived key; otherwise nothing changes |
| Cache.RedisCache.Delete | app/cache/redis_cache.py:86-98 | returns true exactly when an unexpired entry existed under the derived key; the key is gone afterwards; without a backend or on a failure, false and nothing changes |
| Cache.RedisCache.ClearAll | app/cache/redis_cache.py:100-114 | returns true whenever connected and no failure, even when no key matched, and removes exactly the prefixed keys; otherwise false and nothing changes |
| Cache.RedisCache.GetCacheStats | app/cache/redis_cache.py:116-131 | disconnected: not connected with 0 keys; failure: not connected with an error; otherwise connected with the number of live prefixed keys |
| Cache.SetThenGet | app/cache/redis_cache.py:44-80 | a successful set followed by a get with a map-equal dict returns the response until the TTL has passed, and misses afterwards |
| GptAgent.CountDone | app/agents/gpt_agent.py:50 | the number of finished sub-tasks, at most the number of entries |
| GptAgent.AppendSubTaskItems | app/agents/gpt_agent.py:53-55 | the loop appends one item line per sub-task, in object order |
| GptAgent.AppendSubTasks | app/agents/gpt_agent.py:46-55 | a non-empty decoded object adds its count line and then its item lines; an empty one adds nothing |
| GptAgent.FormatTaskDetails | app/agents/gpt_agent.py:15-61 | the lines built step by step are exactly the detail lines of the task |
| GptAgent.DetailsMembers | app/agents/gpt_agent.py:17-59 | a line is in a task's details exactly when the title, status or Created line is that line, or one of the optional parts holds it |
| GptAgent.DetailsFrame | app/agents/gpt_agent.py:17-59 | the title line is always first and the Created line always last |
| GptAgent.DescriptionLineIff | app/agents/gpt_agent.py:19-20 | a description line appears exactly when the description is non-empty, and shows it |
| GptAgent.PriorityLineIff | app/agents/gpt_agent.py:24-26 | a priority line appears exactly when a priority is set, and shows it |
| GptAgent.TagsLineIff | app/agents/gpt_agent.py:38-44 | a tag line appears exactly when the tags decode to a non-empty list; tags that do not decode are skipped without failing |
| GptAgent.OverdueMarkIff | app/agents/gpt_agent.py:28-36 | OVERDUE is shown exactly when the task is pending with a due date strictly before `now` |
| GptAgent.SubTaskCountLine | app/agents/gpt_agent.py:46-57 | the sub-task line appears exactly for a decodable non-empty object, and reports finished over total entries (finished ≤ total) |
| GptAgent.MiniTaskLinesKinds | app/agents/gpt_agent.py:46-57 | the sub-task part adds only the count line and item lines |
| GptAgent.StatusPartition | app/agents/gpt_agent.py:71-72 | completed and pending partition the list: counts add up, multisets add up, and each task is in exactly one |
| GptAgent.OverdueSectionExact | app/agents/gpt_agent.py:81-82 | the overdue section holds exactly the listed tasks that are pending with a due date before `now` |
| GptAgent.HighSectionExact | app/agents/gpt_agent.py:89 | the high-priority section holds exactly the pending tasks of priority high |
| GptAgent.OtherPendingExact | app/agents/gpt_agent.py:96 | "other pending" is the pending tasks in neither section, and the three sections together cover every pending task |
| GptAgent.Entries | app/agents/gpt_agent.py:85-86 | one task entry per task, in list order |
| GptAgent.SummaryPrompt | app/agents/gpt_agent.py:65-66 | the fixed no-tasks text is returned exactly for an empty list |
| GptAgent.SummaryOverview | app/agents/gpt_agent.py:74-78 | a composed summary opens with the overview, whose total is the list length and whose completed and pending counts add up to it |
| GptAgent.AppendSection | app/agents/gpt_agent.py:83-106 | a section appended task by task is its header with the count, then one entry per task, or nothing when empty |
| GptAgent.BuildPromptSummary | app/agents/gpt_agent.py:63-115 | the prompt built step by step equals the summary prompt |
| GptAgent.NumberedEntries | app/agents/gpt_agent.py:137-138 | the i-th pending task is entry number i+1 |
| GptAgent.CompletedItems | app/agents/gpt_agent.py:144-145 | one title-and-date line per completed task, in order |
| GptAgent.NoPendingIffAllCompleted | app/agents/gpt_agent.py:122-125 | no task is pending exactly when every task is completed |
| GptAgent.RecommendationPrompt | app/agents/gpt_agent.py:119-125 | the no-tasks text exactly for an empty list; the all-completed text exactly for a non-empty list with no pending task |
| GptAgent.NumberPending | app/agents/gpt_agent.py:136-138 | the numbering loop yields the numbered entries |
| GptAgent.ListCompleted | app/agents/gpt_agent.py:141-145 | the context loop yields the header and one line per completed task, or nothing |
| GptAgent.BuildPromptRecommendation | app/agents/gpt_agent.py:117-156 | the prompt built step by step equals the recommendation prompt |
| GptAgent.RecommendationTotal | app/agents/gpt_agent.py:127-154 | the reported pending total is the number of pending tasks; the prompt is four header blocks, one block per pending task, the completed context and the instructions |
| GptAgent.RecommendationNumbering | app/agents/gpt_agent.py:136-138 | after the header the pending tasks follow, task i numbered i+1 with its detail lines, in input order |
| GptAgent.RecommendationCompletedLast | app/agents/gpt_agent.py:136-145 | every completed-task line comes after every numbered pending task |
| GptAgent.RecommendationCompletedNamed | app/agents/gpt_agent.py:141-145 | every completed-task line shows the title and creation time of a completed task |
| GptAgent.CompletedContextItems | app/agents/gpt_agent.py:142-145 | every line of the completed context after its header names a completed task |
| AgentApi.RateBounds | app/api/agent.py:49 | the rounded rate lies in [0, 100.0]; it is 0 when nothing is done and 100.0 when all is done |
| AgentApi.RateHundredIff | app/api/agent.py:49 | the rate is 100.0 exactly when 2000·done ≥ 1999·total |
| AgentApi.RateHundredNotAllDone | app/api/agent.py:49 | 3999 done out of 4000 reports 100.0 |
| AgentApi.SummaryMetadataOf | app/api/agent.py:40-49 | completed plus pending is the total; the rate is 0 for no tasks, at most 100.0, and 100.0 when all are done |
| AgentApi.OverdueIdsExact | app/api/agent.py:83-90 | every listed id belongs to a pending task due before `now`, every such task's id is listed, and there are at most as many as pending tasks |
| AgentApi.OverdueStep | app/api/agent.py:88-90 | one loop step appends the task's id exactly when it is due before `now` |
| AgentApi.RecommendationMetadataOf | app/api/agent.py:83-98 | the loop's id list is the overdue ids in input order; its length is the overdue count; overdue and high-priority counts never exceed the pending total |
| AgentApi.SameOverdueRule | app/api/agent.py:89 | the endpoint's overdue ids are the ids of the tasks the summary builder lists as overdue, for the tasks as the endpoints hand them over |
| AgentApi.PromptOmitsTagsAsWritten | app/agents/gpt_agent.py:38-57 | as written, no prompt shows any task's tags or sub-task progress |
| AgentApi.PromptDropsTagExample | app/api/agent.py:31-34 | a pending task tagged "work" loses its tag line as written and keeps it with decoded values |
| AgentApi.PromptShowsTags | app/services/task_service.py:88-100 | with decoded values handed over, the tag line shows exactly a non-empty tag list and the sub-task line its progress |
| AgentApi.GetProjectSummary | app/api/agent.py:29-53 | the prompt is the summary prompt of the task list as handed over (tags and sub-tasks already decoded, so never shown), and the metadata is computed from the same list; the fixed text exactly for no tasks |
| AgentApi.GetTaskRecommendations | app/api/agent.py:72-102 | the prompt is the recommendation prompt of the list as handed over; the metadata is the pending count, the high-priority pending count, and the overdue ids with their count |
| AgentApi.EndpointDetailsOmitTags | app/api/agent.py:31-34 | as the endpoints hand tasks over, no task's details in either prompt show its tags or sub-task progress |
| TaskService.NewTask | app/services/task_service.py:26-44 | a blank title, then a missing due date, is an error; otherwise a pending row with that id, due date, priority and creation time |
| TaskService.NewTaskNormalises | app/services/task_service.py:38-39 | the stored title is the stripped, non-blank title; the description is stripped, or none when absent or empty |
| TaskService.NewTaskRoundTrip | app/services/task_service.py:33-59 | non-empty tags and mini-tasks come back unchanged through the JSON encoding; empty or absent ones come back as none |
| TaskService.ApplyProvided | app/services/task_service.py:126-142 | the seven guarded assignments, run in order, produce the patched row |
| TaskService.Patched | app/services/task_service.py:120-142 | an update fails exactly for a provided blank title; id, creation time and owner never change |
| TaskService.PatchKeepsOmitted | app/services/task_service.py:120-142 | every field whose argument is omitted keeps its value |
| TaskService.PatchAppliesProvided | app/services/task_service.py:121-142 | provided fields take the given value, `completed=False` included; a provided description is stored stripped, `""` as none and blank text as `""`; a provided list reads back as given, an empty one as `[]` |
| TaskService.NoChangeIsIdentity | app/services/task_service.py:120-142 | an update with nothing provided leaves the row unchanged |
| TaskService.PatchIdempotent | app/services/task_service.py:120-142 | applying the same update twice equals applying it once |
| TaskService.EmptyTagsCreateVsUpdate | app/services/task_service.py:138-154 | an empty tag list reads back as `[]` after an update, but as none after a create |
| TaskService.TaskService.constructor | app/repositories/task_repository.py:7-8 | the service starts over the given table |
| TaskService.TaskService.GetTaskById | app/services/task_service.py:62-80 | for a present id, the whole stored row as its view, with tags and sub-tasks decoded; otherwise a not-found error for that id |
| TaskService.TaskService.CreateTask | app/services/task_service.py:13-60 | on a validation error nothing is stored; otherwise exactly one new row under a fresh id, returned as its view |
| TaskService.TaskService.UpdateTask | app/services/task_service.py:102-156 | a missing id or blank title changes nothing and is an error; otherwise only that row changes, to the patched row |
| TaskService.TaskService.RepositoryDelete | app/repositories/task_repository.py:41-50 | returns true exactly when the id was present; the id is absent afterwards |
| TaskService.TaskService.DeleteTask | app/services/task_service.py:158-166 | a missing id is a not-found error and changes nothing; otherwise the row is removed and true is returned |
| TaskComponent.SetEntry | client/src/components/task/Task.tsx:99-102 | the key maps to the value, every other key reads as before, a new key goes last, and setting an existing key keeps the number of entries |
| TaskComponent.SetEntryKeepsDistinct | client/src/components/task/Task.tsx:99-102 | an object whose keys are distinct keeps them distinct after a key is set |
| TaskComponent.RemoveEntry | client/src/components/task/Task.tsx:311-312 | the key is gone and every other key reads as before |
| TaskComponent.ToggleTwiceRestores | client/src/components/task/Task.tsx:129-132 | toggling a sub-task twice with the shown status restores the object |
| TaskComponent.AddMiniTask | client/src/components/task/Task.tsx:92-108 | blank name or no id: no request; otherwise a mini-tasks-only update mapping the trimmed name to false and keeping every other entry |
| TaskComponent.ToggleMiniTask | client/src/components/task/Task.tsx:121-138 | no id: no request; otherwise only that sub-task changes, to the negation of the passed status |
| TaskComponent.DeleteMiniTask | client/src/components/task/Task.tsx:303-318 | no id: no request; otherwise exactly that sub-task is removed |
| TaskComponent.DeleteTag | client/src/components/task/Task.tsx:329-343 | no id: no request; null tags: an alert; otherwise every occurrence of the tag is removed and other tags keep their counts |
| TaskComponent.AddTag | client/src/components/task/Task.tsx:353-374 | blank or no id: nothing; a present trimmed tag: an alert; otherwise the trimmed tag is appended, with null tags read as empty; no duplicates are introduced |
| TaskComponent.SaveDescription | client/src/components/task/Task.tsx:237-252 | no id: no request; a blank value is sent as `' '`, any other value untrimmed |
| TaskComponent.SavedDescriptionOnServer | client/src/components/task/Task.tsx:245-251 | a saved blank description is stored empty and omitted from prompts; any other value is stored trimmed |
| TaskComponent.PriorityColor | client/src/components/task/Task.tsx:395-406 | white exactly when no priority is set |
| TaskComponent.PriorityColorInjective | client/src/components/task/Task.tsx:395-406 | different priorities get different colours |
| Seqs.Without | client/src/components/task/Task.tsx:337 | the tag is gone and every other element keeps its count |
| Seqs.WithoutNoDuplicates | client/src/components/forms/AddTaskForm.tsx:25-27 | removing a tag from a list without duplicates leaves a list without duplicates |
| Seqs.WithoutIsFilter | client/src/components/forms/AddTaskForm.tsx:26 | removal keeps the remaining elements in order |
| AddTaskForm.AddTag | client/src/components/forms/AddTaskForm.tsx:18-23 | a non-blank tag not yet listed is appended trimmed and the input cleared; otherwise list and input are unchanged |
| AddTaskForm.RemoveTag | client/src/components/forms/AddTaskForm.tsx:25-27 | the tag is gone, other tags keep their counts, and the input is untouched |
| AddTaskForm.AddTagPreserves | client/src/components/forms/AddTaskForm.tsx:18-23 | adding keeps the list free of blanks, untrimmed tags and duplicates |
| AddTaskForm.RemoveTagPreserves | client/src/components/forms/AddTaskForm.tsx:25-27 | removing keeps the list free of blanks, untrimmed tags and duplicates |
| AddTaskForm.Submit | client/src/components/forms/AddTaskForm.tsx:29-45 | no body for a blank title or empty due date; otherwise trimmed title, due date as entered, description only when non-blank (trimmed), priority only when chosen, tags only when non-empty |
| AddTaskForm.SubmittedPayloadAccepted | client/src/components/forms/AddTaskForm.tsx:36-42 | a submitted body passes the server's create validation, which stores its title, description and tags as sent |
| MainPage.Rank | client/src/pages/MainPage.tsx:129-131 | ranks lie in 0..3, with 0 exactly for no priority |
| MainPage.RankOrder | client/src/pages/MainPage.tsx:129 | high > medium > low > none |
| MainPage.ComparisonAntisymmetric | client/src/pages/MainPage.tsx:138 | swapping arguments negates the comparison, so descending is ascending with the arguments swapped |
| MainPage.ComparisonTransitive | client/src/pages/MainPage.tsx:121-139 | the comparator is transitive for every field and direction |
| MainPage.InsertOrdered | client/src/pages/MainPage.tsx:120 | inserting into an ordered list keeps it ordered |
| MainPage.SortedTasks | client/src/pages/MainPage.tsx:117-140 | the result is a permutation of the input, and empty for an empty list |
| MainPage.SortedTasksOrdered | client/src/pages/MainPage.tsx:120-139 | the result is ordered under the comparator, for every field and direction |
| MainPage.SortedByKey | client/src/pages/MainPage.tsx:123-136 | ascending by due date, due dates never decrease; descending by priority, ranks never increase; ascending by title, titles never go back |
| Strings.TrimStartShape | app/services/task_service.py:38 | stripping the start removes exactly a run of leading white space, and what remains does not begin with white space |
| Strings.TrimEndShape | app/services/task_service.py:38 | stripping the end removes exactly a run of trailing white space, and what remains does not end with white space |
| Strings.StripEnds | app/services/task_service.py:38 | a stripped string is empty or begins and ends with a non-space character |
| Strings.StripIdempotent | app/services/task_service.py:38 | stripping a stripped string changes nothing |
| Strings.BlankIffAllSpace | app/services/task_service.py:26 | a string is blank exactly when all its characters are white space |
| Strings.CompareAntisymmetric | client/src/pages/MainPage.tsx:135 | the string order is antisymmetric |
| Strings.CompareTransitive | client/src/pages/MainPage.tsx:135 | the string order is transitive, strictly when one step is strict |
| Seqs.FilterSplit | app/agents/gpt_agent.py:71-72 | filtering on a test and on its negation splits a list: multisets and lengths add up |
| Seqs.FilterMembers | app/agents/gpt_agent.py:122 | an element is in the filtered list exactly when it is in the list and passes the test |
| Seqs.FilterMap | app/api/agent.py:83-89 | filtering converted values equals converting filtered values when the tests agree |

## Left out

- Network and process I/O are not modelled. This covers the Redis connection and socket
  settings, and the text-generator calls with their provider choice and canned texts.
  It also covers FastAPI routing, HTTP status mapping, authentication, users, database
  sessions, and React state, rendering and alerts. An agent endpoint here yields the
  prompt it would send.
- `get_all_tasks` is not modelled on its own. The agent endpoints take the task list as
  a parameter, in whatever order the database returns it.
- Prompt wording, emoji and date formatting (`strftime`, the `.1f` percentages) are not
  modelled. Prompts are sequences of structured lines and blocks. "Due Today" compares
  UTC days, taken as timestamp divided by 86400.
- The clock is not modelled. The source reads `datetime.utcnow()` separately in each
  builder and in the endpoint. The model passes one `now` to all of them.
- Cache.CacheKey: `json.dumps` and MD5 are given functions. Dict values hold no nested
  objects, so sorting nested keys is not modelled.
- Cache.RedisCache.Get: the stored response is assumed to survive `json.dumps` and
  `json.loads` unchanged.
- Cache.RedisCache.GetCacheStats: the `memory_usage` and `redis_version` strings are left out.
- Cache.RedisCache.ClearAll: removes expired prefixed entries too. No operation can see
  those entries anyway.
- Cache: a backend failure is one `fault` flag per call. A failed write or delete is
  taken to leave the table unchanged.
- AgentApi.SummaryMetadataOf: `completion_rate` is computed in tenths of a percent. It
  rounds half to even on the exact quotient. Python's float rounding of `c / n * 100`
  can differ from that at exact ties.
- Strings: `str.strip()` and JavaScript `trim()` remove different character sets.
  Python also removes U+001C to U+001F and U+0085, which `trim()` keeps. `trim()`
  removes U+FEFF, which `str.strip()` keeps. Both remove the ASCII white space, U+00A0
  and the other Unicode space separators. The model strips only space, tab, line feed,
  carriage return, vertical tab and form feed, on both sides.
- AddTaskForm.SubmittedPayloadAccepted: holds only when the title and description do
  not start or end with U+001C to U+001F or U+0085. The form sends such a
  title "\x85" because `trim()` keeps the character, and the server then rejects it as
  blank. A title "a\x1f" is stored as "a" rather than as sent.
- Strings.Compare stands in for `localeCompare` with code-point order. Locale collation
  is not modelled.
- MainPage: due dates are integer timestamps. An unparsable date, which `Date` turns
  into `NaN`, is not modelled.
- TaskComponent.SetEntry: JavaScript puts integer-like keys first in an object. The
  model does not; every new key goes last.
- TaskService: ids come from a counter, and `created_at` is the `now` argument. A
  not-found error carries the id instead of the message text.
- The card's other handlers are not part of this model: completion toggle, priority
  picker, due-date editing and task deletion.

## Findings

| source | as written | input that shows it | evidently intended | confidence | as-written member | corrected member |
|---|---|---|---|---|---|---|
| app/api/agent.py:31-34 | The endpoints pass `get_all_tasks()` results to the builders. Those are TaskResponse objects, whose `tags` and `mini_tasks` are already a list and a dict (app/services/task_service.py:97-98). `format_task_details` calls `json.loads` on them, which raises `TypeError`, and the error is swallowed (app/agents/gpt_agent.py:38-57). No prompt ever shows tags or sub-task progress. | a pending task with `tags=["work"]` | the prompt lists "Tags: work" and the sub-task progress | medium (not executed) | AgentApi.PromptOmitsTagsAsWritten | AgentApi.PromptShowsTags |
