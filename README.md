# muppet core, modelled in Dafny

This project models the logic at the heart of muppet, a chat and coding-agent application. Its parts are a Next.js web app, a Cloudflare worker API, a Tauri desktop shell and a shared agent runtime. The model covers:

- **Agent runtime.**
  - Execution targets: canonical form and which targets each surface supports.
  - The per-conversation agent claim. A stored agent id is reused. Otherwise a new agent is created and claimed by compare-and-set, and a losing claim schedules exactly one orphan deletion.
  - What happens after the stream: the reply is saved when non-empty, and cleanup runs once.
- **Desktop MCP connections.**
  - The OAuth state string.
  - The single-shot OAuth callback wait.
  - Dispatch on the auth type, and the "cached tokens first" rule.
  - The partial-failure merge of tool sets.
  - Which clients cleanup closes.
- **CI job viewer.**
  - The set helpers, and the selection and filter state.
  - The mock run registry.
  - Job visibility, grouping and panels.
  - Filter labels and status sections.
  - The commit picker.
  - Error-line styles.
- **Web client.**
  - The worker API client's validators, pagination clamp, error-message extraction and message conversion.
  - The code-workspace provider's lists and selection.
  - The sidebar's route mode, stats and conversation grouping.
  - The conversations hook, with its stale-request guard.
  - The chat hook's history loading, with its single retry and its cancellation guard.
- **Desktop commands.** Byte-length input checks, the id format and the sanitised database error.
- **Worker.** CORS origin, JSON content-type guard, pipeline order, `/migrate` gate, default title and error mapping.

State that the source changes in place is modelled as classes: React state, refs, the static id counter, and the store and hooks handed to the runtime. Their methods carry `modifies` clauses, and their contracts state the whole new state. Pure logic is modelled as functions, with lemmas relating them.

Inputs are parameters. This covers answers from the network, the database, the clock and `localStorage`. An `await` splits an async operation into the part before it and the part after it. The outcome of the awaited call is a parameter of the second part.

`Wrappers` holds `Option` and `Result`. `JsStrings` holds JavaScript's `trim`, whitespace test, truthiness and decimal rendering. `AiSdk` holds the AI SDK's message shapes. Strings are sequences of characters. String lengths count characters, except in the desktop commands, where Rust's `len()` counts UTF-8 bytes; there the model counts bytes too (`DesktopCommands.Utf8Len`).

## Model

| member | source | states |
|---|---|---|
| JsStrings.DecimalRoundTrip | src/mcp-clients.ts:102 | the port rendered into the redirect URL reads back as the same number, with no leading zero |
| AgentRuntime.CanonicalizeExecutionTarget | packages/agent-runtime/src/index.ts:23-39 | succeeds, always with "sandbox", exactly for undefined, null, "", "sandbox" and "default"; any other string fails with the unsupported-target message naming it |
| AgentRuntime.CanonicalizeIdempotent | packages/agent-runtime/src/index.ts:23-39 | the canonical target canonicalises to itself |
| AgentRuntime.SupportedExecutionTargetsForSurface | packages/agent-runtime/src/index.ts:41-60 | a target is listed iff `supportsExecutionTargetOnSurface` holds for it; sandbox comes first |
| AgentRuntime.SupportedTargetsAgree | packages/agent-runtime/src/index.ts:41-60 | the list has no repeats, holds every supported target, and has two entries only on the desktop |
| AgentRuntime.FormatErrorContext | packages/agent-runtime/src/index.ts:90-98 | the message alone when the context is absent or empty, else `message [context]` |
| AgentRuntime.Hooks.Schedule | packages/agent-runtime/src/index.ts:75-79 | a scheduled task is appended to the host's task log |
| AgentRuntime.Hooks.OnError | packages/agent-runtime/src/index.ts:75-79 | a report is appended to the host's error log |
| AgentRuntime.ConversationStore.GetExistingAgentId | packages/agent-runtime/src/index.ts:67-73 | reads the stored agent id |
| AgentRuntime.ConversationStore.ClaimAgentId | packages/agent-runtime/src/index.ts:67-73 | compare-and-set: succeeds iff no id was stored, and only then writes the candidate |
| AgentRuntime.ConversationStore.GetWinningAgentId | packages/agent-runtime/src/index.ts:67-73 | reads the stored agent id after a lost claim |
| AgentRuntime.ConversationStore.SaveUserMessage | packages/agent-runtime/src/index.ts:67-73 | the message is appended iff the save succeeds; the failure is returned |
| AgentRuntime.ConversationStore.SaveAssistantMessage | packages/agent-runtime/src/index.ts:67-73 | the reply is appended iff the save succeeds; the failure is returned |
| AgentRuntime.AgentService.CreateAgent | packages/agent-runtime/src/index.ts:119 | a created agent's id is recorded; a failure is passed on |
| AgentRuntime.AgentService.DeleteAgent | packages/agent-runtime/src/index.ts:125-128 | every delete request is recorded, whether or not it fails |
| AgentRuntime.Advance | packages/agent-runtime/src/index.ts:111-146 | one await step of a resolver: a stored id is never overwritten; the store changes only when this resolver wins the claim; the only task it schedules is the deletion of the agent it lost with; each step lowers the resolver's rank |
| AgentRuntime.Resolver.Step | packages/agent-runtime/src/index.ts:111-146 | the imperative step moves store, hooks, service and resolver exactly as `Advance` says |
| AgentRuntime.ResolveOrCreateAgentId | packages/agent-runtime/src/index.ts:111-146 | a truthy stored id is returned with nothing created, claimed or scheduled; a failed creation is the error; a won claim returns the new id and schedules nothing; a lost claim schedules one deletion of the new agent and then returns the winner or fails |
| AgentRuntime.AdvanceConsistent | packages/agent-runtime/src/index.ts:111-146 | a step keeps store and resolvers consistent: at most one winner, who holds the stored id, and returned ids equal the stored id |
| AgentRuntime.AdvanceAccounted | packages/agent-runtime/src/index.ts:125-138 | a step keeps the tasks scheduled since the start equal to one deletion per losing resolver |
| AgentRuntime.AdvanceHeldDistinct | packages/agent-runtime/src/index.ts:119-138 | with ids never repeated, a step keeps every held or lost id distinct from the stored one |
| AgentRuntime.AdvanceProgressing | packages/agent-runtime/src/index.ts:111-146 | each turn of a resolver brings it one await closer to returning |
| AgentRuntime.AdvanceAllOk | packages/agent-runtime/src/index.ts:140-145 | with every creation succeeding, no resolver step fails |
| AgentRuntime.ConsistentThroughout | packages/agent-runtime/src/index.ts:111-146 | consistency holds after any prefix of any interleaving |
| AgentRuntime.AccountedThroughout | packages/agent-runtime/src/index.ts:125-138 | the deletion account holds after any prefix of any interleaving |
| AgentRuntime.ProgressingThroughout | packages/agent-runtime/src/index.ts:111-146 | progress holds after any prefix of any interleaving |
| AgentRuntime.AllOkThroughout | packages/agent-runtime/src/index.ts:140-145 | with successful creations, no resolver has failed after any prefix |
| AgentRuntime.HeldDistinctThroughout | packages/agent-runtime/src/index.ts:119-138 | the distinctness of created ids holds after any prefix |
| AgentRuntime.RaceAgrees | packages/agent-runtime/src/index.ts:111-146 | however resolvers for one conversation interleave, every returned id is the stored id, and a stored id is never replaced |
| AgentRuntime.RaceSingleWinner | packages/agent-runtime/src/index.ts:119-123 | at most one resolver wins the claim, only when nothing was stored, and its id is what is stored |
| AgentRuntime.RaceDeletesLosers | packages/agent-runtime/src/index.ts:125-138 | the tasks scheduled during a race are exactly one orphan deletion per losing resolver, for the agent it created |
| AgentRuntime.RaceNeverDeletesWinner | packages/agent-runtime/src/index.ts:125-138 | when the service never repeats an id, no deletion targets the stored agent |
| AgentRuntime.RaceTerminates | packages/agent-runtime/src/index.ts:111-146 | a resolver given four turns has returned, and with successful creations it returned an id |
| AgentRuntime.RunDeleteOrphanTask | packages/agent-runtime/src/index.ts:125-138 | the delete request is always sent; a failure is reported with the orphan-deletion message and context |
| AgentRuntime.LoadedTools.Cleanup | packages/agent-runtime/src/index.ts:203 | each cleanup is counted, its failure swallowed |
| AgentRuntime.ToolsOption | packages/agent-runtime/src/index.ts:168-178 | tools are passed to the model iff there is at least one, and then unchanged |
| AgentRuntime.ReportStreamError | packages/agent-runtime/src/index.ts:179-184 | a stream error is reported once, with the stream-error message and context |
| AgentRuntime.RunPostStreamTask | packages/agent-runtime/src/index.ts:187-206 | the reply is saved verbatim iff its trimmed text is non-empty; a stream or save failure is reported once; cleanup runs exactly once on every path |
| AgentRuntime.StreamAgentChat | packages/agent-runtime/src/index.ts:148-206 | the stream starts iff the agent resolves and both the save and the tool load succeed, with the stored agent id, the prompt and the tools; exactly one post-stream task is scheduled when it starts and none otherwise; the stored agent id, the created agents and the saved user messages are given for every outcome, and an unresolved agent gives the creation error or "Failed to resolve agent for conversation"; tools loaded while the save failed are never cleaned up |
| AgentRuntime.StreamAgentChatReleasingTools | packages/agent-runtime/src/index.ts:163-166 | every tool set that loads is either cleaned up once, with no cleanup task scheduled, or handed to the single scheduled post-stream task; the store and the agent service end as in `streamAgentChat` |
| McpClients.CreateClient | src/mcp-clients.ts:74-80 | a client over the given server and transport, or the SDK's error |
| McpClients.ReplaceAll | src/mcp-clients.ts:33-34 | every occurrence of one character replaced, all others kept, length unchanged |
| McpClients.RemoveAll | src/mcp-clients.ts:35 | the removed character no longer occurs, no new character appears, and a string without it is unchanged |
| McpClients.GenerateOAuthState | src/mcp-clients.ts:29-36 | the state contains no '+', '/' or '=' |
| McpClients.OAuthStateRoundTrip | src/mcp-clients.ts:29-36 | the state uses only the URL-safe alphabet of section 5 of RFC 4648 and maps back to the padded encoding it came from, so distinct encodings give distinct states |
| McpClients.StateOfPadded | src/mcp-clients.ts:32-35 | the state of an encoding is its digits in URL-safe form, without the padding |
| McpClients.WaitResult | src/mcp-clients.ts:48-61 | a code with the expected state resolves with exactly that code; a code with another state rejects with the CSRF message; an error event rejects with its payload |
| McpClients.OAuthWait.constructor | src/mcp-clients.ts:38-62 | both listeners are registered and nothing is settled |
| McpClients.OAuthWait.Deliver | src/mcp-clients.ts:48-61 | an event reaching a registered listener unregisters both listeners and settles the wait as `WaitResult` says; any other event changes nothing |
| McpClients.OAuthWait.DeliverAll | src/mcp-clients.ts:38-65 | after any sequence of events the wait is settled by the first one, and only once |
| McpClients.ConnectWithApiKey | src/mcp-clients.ts:67-81 | a failed key lookup is the error; a missing or empty stored key fails with the no-key message naming the server; otherwise the client sends the bearer key |
| McpClients.ConnectWithOAuth | src/mcp-clients.ts:83-113 | cached tokens are tried first; only an unauthorized answer starts the callback server; any other error propagates unchanged; a failed callback-server start or listener registration is the error; with no callback event it never settles; the code is exchanged only after a matching callback, and then the result is `auth`'s error or the final client |
| McpClients.ForgedCallbackRejected | src/mcp-clients.ts:48-56 | a callback with a forged state never exchanges a code and fails with the CSRF message |
| McpClients.ConnectServer | src/mcp-clients.ts:115-126 | "api_key" goes to the keyed connection, "oauth" to the OAuth flow, any other auth type to an unauthenticated client; only an OAuth connection can stay unsettled |
| McpClients.MergeHasName | src/mcp-clients.ts:145-151 | a tool name is merged iff some fulfilled server offers it |
| McpClients.MergeLastWins | src/mcp-clients.ts:145-151 | a merged name carries the tool of the last fulfilled server offering it |
| McpClients.MergeIgnoresFailures | src/mcp-clients.ts:145-151 | a failed server adds nothing and changes nothing |
| McpClients.ConnectedClientsComplete | src/mcp-clients.ts:137-142 | every server that connected has its client listed, even when its `tools()` call then failed, and only those |
| McpClients.McpToolsResult.Cleanup | src/mcp-clients.ts:155-157 | a close is requested for every connected client; one failure does not stop the rest |
| McpClients.GetActiveTools | src/mcp-clients.ts:128-159 | no servers gives no tools and no clients; if any connection never settles it never returns; otherwise the merged tools, the connected clients in server order, and one warning per unfulfilled server |
| SetUtils.ToggleInSet | apps/web/reference/ci-job-viewer/set-utils.ts:1-9 | the value's membership flips and nothing else changes |
| SetUtils.ToggleInvolution | apps/web/reference/ci-job-viewer/set-utils.ts:1-9 | toggling twice gives back the original set |
| SetUtils.SoloInSet | apps/web/reference/ci-job-viewer/set-utils.ts:11-20 | all values when the set is exactly {v}, else {v} |
| SetUtils.SoloTwiceRestores | apps/web/reference/ci-job-viewer/set-utils.ts:11-20 | from the full set, soloing v gives {v} and soloing it again restores the full set |
| SetUtils.RemoveFromSet | apps/web/reference/ci-job-viewer/set-utils.ts:22-36 | the result is the set minus the ids; the original set itself is returned iff no ids are given or none of them is present |
| SetUtils.RemoveIdempotent | apps/web/reference/ci-job-viewer/set-utils.ts:22-36 | removing twice equals removing once, and none of the ids remains |
| Selection.SelectionState.constructor | apps/web/reference/ci-job-viewer/selection-context.tsx:37 | the selection starts empty |
| Selection.SelectionState.Select | apps/web/reference/ci-job-viewer/selection-context.tsx:39-49 | a shift-click toggles the id only; a plain click on the sole selected id clears; any other plain click selects exactly {id} |
| Selection.SelectionState.Deselect | apps/web/reference/ci-job-viewer/selection-context.tsx:51-54 | removes only that id |
| Selection.SelectionState.DeselectMany | apps/web/reference/ci-job-viewer/selection-context.tsx:56-60 | removes only the given ids |
| Selection.SelectionState.SelectSingle | apps/web/reference/ci-job-viewer/selection-context.tsx:62-65 | the selection becomes {id} |
| Selection.SelectionState.ClearSelection | apps/web/reference/ci-job-viewer/selection-context.tsx:67 | the selection becomes empty |
| Selection.SelectionState.SelectedErrors | apps/web/reference/ci-job-viewer/selection-context.tsx:69-75 | exactly the selected ids present in the error map, with their details |
| Filters.FilterState.constructor | apps/web/reference/ci-job-viewer/filter-context.tsx:34-46 | both filters start full |
| Filters.FilterState.ToggleJob | apps/web/reference/ci-job-viewer/filter-context.tsx:48-51 | toggles within the jobs filter; statuses unchanged |
| Filters.FilterState.ToggleStatus | apps/web/reference/ci-job-viewer/filter-context.tsx:53-56 | toggles within the statuses filter; jobs unchanged |
| Filters.FilterState.SoloJob | apps/web/reference/ci-job-viewer/filter-context.tsx:58-61 | solos within the jobs filter; statuses unchanged |
| Filters.FilterState.SoloStatus | apps/web/reference/ci-job-viewer/filter-context.tsx:63-67 | solos within the statuses filter; jobs unchanged |
| Filters.FilterState.ResetJobs | apps/web/reference/ci-job-viewer/filter-context.tsx:69 | the jobs filter is full again whatever it was; statuses unchanged |
| Filters.FilterState.ResetStatuses | apps/web/reference/ci-job-viewer/filter-context.tsx:70-73 | the statuses filter is full again whatever it was; jobs unchanged |
| Filters.SoloJobTwice | apps/web/reference/ci-job-viewer/filter-context.tsx:58-61 | from the full jobs filter, soloing v gives {v} and soloing again restores all jobs |
| Filters.SoloStatusTwice | apps/web/reference/ci-job-viewer/filter-context.tsx:63-67 | the same for statuses |
| Filters.FullSizes | apps/web/reference/ci-job-viewer/filter-context.tsx:34-42 | five distinct jobs and six distinct statuses |
| MockData.Runs | apps/web/reference/ci-job-viewer/mock-data.ts:818-872 | the registry's runs, in order |
| MockData.MockRunsKeyed | apps/web/reference/ci-job-viewer/mock-data.ts:818-872 | every key is its run's `org/project`, keys are distinct, and no org or project contains '/' |
| MockData.Lookup | apps/web/reference/ci-job-viewer/mock-data.ts:874-875 | `Map.get`: absent iff no entry has the key, else an entry's run |
| MockData.KeyParts | apps/web/reference/ci-job-viewer/mock-data.ts:875 | slash-free org and project are recovered from the key |
| MockData.GetMockRun | apps/web/reference/ci-job-viewer/mock-data.ts:874-875 | null iff "o/p" is not a key; otherwise the run, whose org and project are o and p |
| MockData.GetDefaultRun | apps/web/reference/ci-job-viewer/mock-data.ts:877-880 | the run's `run` field iff the run exists, else null |
| MockData.KnownRuns | apps/web/reference/ci-job-viewer/mock-data.ts:818-880 | the default runs of the listed projects, and null for an unlisted one |
| MockData.Distinct | apps/web/reference/ci-job-viewer/mock-data.ts:882-898 | the same members as the input, each once |
| MockData.GetAllOrgs | apps/web/reference/ci-job-viewer/mock-data.ts:882-888 | each run's org exactly once, in first-seen order |
| MockData.GetProjectsForOrg | apps/web/reference/ci-job-viewer/mock-data.ts:890-898 | the projects of the org's runs, each once, in first-seen order |
| MockData.ProjectsOfMembers | apps/web/reference/ci-job-viewer/mock-data.ts:890-898 | a project is listed iff some run of that org has it |
| MockData.UnknownOrgHasNoProjects | apps/web/reference/ci-job-viewer/mock-data.ts:890-898 | an unknown org has no projects |
| MockData.KnownOrgs | apps/web/reference/ci-job-viewer/mock-data.ts:882-888 | the orgs are "handleui" then "detentsh" |
| MockData.TextBeforeDash | apps/web/reference/ci-job-viewer/mock-data.ts:901 | `id.split("-")[0]`: the longest dash-free prefix |
| MockData.ErrorIdToJobKeyAsWritten | apps/web/reference/ci-job-viewer/mock-data.ts:900-906 | "migrations" when the prefix is "mig", else the prefix; a dash-free id maps to itself |
| MockData.TypesErrorsOrphaned | apps/web/reference/ci-job-viewer/mock-data.ts:767-816 | the "types-…" errors map to "types", which is no job of their run |
| MockData.ErrorIdToJobKey | apps/web/reference/ci-job-viewer/mock-data.ts:900-906 | as written, except that the prefix "types" maps to "check-types" |
| MockData.PrefixOfId | apps/web/reference/ci-job-viewer/mock-data.ts:901 | the prefix of `p-rest` is p |
| MockData.DetentErrorsHaveJobs | apps/web/reference/ci-job-viewer/mock-data.ts:292-802 | under the corrected key, every error of the first run maps to a job of that run (its ids give the same key as written) |
| MockData.NavigatorErrorsHaveJobs | apps/web/reference/ci-job-viewer/mock-data.ts:505-809 | the same for the second run, again the same under the key as written |
| MockData.HealerErrorsHaveJobs | apps/web/reference/ci-job-viewer/mock-data.ts:654-816 | under the corrected key only, every error of the third run maps to a job of that run; as written its "types" errors do not |
| MockData.EveryErrorHasItsJob | apps/web/reference/ci-job-viewer/mock-data.ts:818-872 | under the corrected key only, every error of every run maps to a job of its run |
| JobList.CountOf | apps/web/reference/ci-job-viewer/job-list.tsx:103-109 | the number of items of one category, at most the item count |
| JobList.CountsCoverItems | apps/web/reference/ci-job-viewer/job-list.tsx:103-109 | the three category counts add up to the item count |
| JobList.IssueCounts | apps/web/reference/ci-job-viewer/job-list.tsx:103-109 | at most one entry per category, the counts summing to the item count |
| JobList.IssueCountsOrdered | apps/web/reference/ci-job-viewer/job-list.tsx:103-109 | entries come in the order Error, Warning, Info |
| JobList.IssueCountsMembers | apps/web/reference/ci-job-viewer/job-list.tsx:103-109 | a category has an entry iff some item has it, and every entry is its category's positive count |
| JobList.Visible | apps/web/reference/ci-job-viewer/job-list.tsx:360-368 | a job is visible iff its key is in the jobs filter and its status in the statuses filter |
| JobList.ErrorsByJob | apps/web/reference/ci-job-viewer/job-list.tsx:370-382 | keyed by `errorIdToJobKey` as written: one list per job key that occurs, holding that key's errors in input order |
| JobList.ErrorsPartitioned | apps/web/reference/ci-job-viewer/job-list.tsx:370-382 | for any key function, the as-written one included: an error is in a key's list iff it is an input error with that key |
| JobList.HiddenIds | apps/web/reference/ci-job-viewer/job-list.tsx:384-388 | for any key function, the as-written one included: exactly the ids of errors whose job is not visible |
| JobList.DeselectHidden | apps/web/reference/ci-job-viewer/job-list.tsx:384-388 | keyed by `errorIdToJobKey` as written: the selection loses exactly the hidden ids, and afterwards no selected error belongs to a job that is not visible |
| JobList.TypesErrorsAlwaysHidden | apps/web/reference/ci-job-viewer/job-list.tsx:370-388 | as written, the third run's "check-types" row gets none of its type errors, and whatever the filters "types-0" and "types-1" are hidden ids |
| JobList.NoneHidden | apps/web/reference/ci-job-viewer/job-list.tsx:384-388 | errors whose jobs are all visible yield no hidden ids |
| JobList.CorrectedKeyHidesOnlyFiltered | apps/web/reference/ci-job-viewer/job-list.tsx:384-388 | under the corrected key, a run whose jobs are all visible hides none of its errors |
| JobList.DefaultOpen | apps/web/reference/ci-job-viewer/job-list.tsx:390-400 | exactly the visible failed or healing jobs, and never more entries than the registry has |
| JobList.DefaultOpenOrdered | apps/web/reference/ci-job-viewer/job-list.tsx:390-400 | each visible failed or healing job gives exactly one entry, its key, and the entries follow registry order |
| JobList.ListsOpeningStep | apps/web/reference/ci-job-viewer/job-list.tsx:390-400 | appending a registry entry appends its key exactly when that job opens by default, keeping the order |
| JobList.ResolveJobPanel | apps/web/reference/ci-job-viewer/job-list.tsx:264-281 | waiting, successful, skipped in that priority, then the issue table when there are issues, else "no issues" |
| JobList.ResolveJobSubtitle | apps/web/reference/ci-job-viewer/job-list.tsx:173-209 | a failed job has a subtitle iff its issue count is positive; an unknown status has none |
| JobList.GenericJob | apps/web/reference/ci-job-viewer/job-list.tsx:283-313 | the heal icon iff failed or healing; subtitle and panel as resolved; an unknown key is its own title |
| RunFilters.FindSelected | apps/web/reference/ci-job-viewer/run-filters.tsx:143 | the first item whose value is selected, or none |
| RunFilters.ResolveFilterLabel | apps/web/reference/ci-job-viewer/run-filters.tsx:128-147 | "All P" when everything is selected, else "No P" when nothing is, else the selected item's label or "1 S" for one, else "n P" |
| RunFilters.JobsMatchFilter | apps/web/reference/ci-job-viewer/run-filters.tsx:40-100 | the picker's jobs are the filter's jobs in order, and its statuses the filter's statuses |
| RunFilters.SoloedJobLabel | apps/web/reference/ci-job-viewer/run-filters.tsx:128-147 | with one job selected the label is that job's caption |
| RunFilters.DirtyIffNotFull | apps/web/reference/ci-job-viewer/run-filters.tsx:269-320 | a filter is dirty iff its selection is not the full set |
| RunFilters.SingleSelected | apps/web/reference/ci-job-viewer/run-filters.tsx:328-331 | a status icon is singled out only when the filter is dirty and exactly one listed status is selected |
| RunFilters.FindByValueSpec | apps/web/reference/ci-job-viewer/run-filters.tsx:114 | `find` by value: an item with that value, or none iff no item has it |
| RunFilters.Resolve | apps/web/reference/ci-job-viewer/run-filters.tsx:113-115 | the found items, unknown values dropped |
| RunFilters.PassingItems | apps/web/reference/ci-job-viewer/run-filters.tsx:108 | the "Passing" section is successful, healed |
| RunFilters.AttentionItems | apps/web/reference/ci-job-viewer/run-filters.tsx:109 | the "Attention" section is failed, healing, waiting |
| RunFilters.OtherItems | apps/web/reference/ci-job-viewer/run-filters.tsx:110 | the "Other" section is skipped |
| RunFilters.StatusSectionsCoverStatuses | apps/web/reference/ci-job-viewer/run-filters.tsx:69-116 | the sections list each of the six statuses exactly once |
| RunFilters.CommitFor | apps/web/reference/ci-job-viewer/run-filters.tsx:208-233 | the commit option with that value, else the first |
| RunFilters.CommitFilter.constructor | apps/web/reference/ci-job-viewer/run-filters.tsx:208 | the picker starts at "latest", not dirty |
| RunFilters.CommitFilter.SelectedCaption | apps/web/reference/ci-job-viewer/run-filters.tsx:208-233 | the caption of the chosen commit, "Latest Commit" when not dirty |
| RunFilters.CommitFilter.OnValueChange | apps/web/reference/ci-job-viewer/run-filters.tsx:208-233 | a value is taken; a null selection leaves the value unchanged |
| RunFilters.CommitFilter.Clear | apps/web/reference/ci-job-viewer/run-filters.tsx:208-233 | back to "latest", not dirty |
| ErrorLine.LineStyle | apps/web/reference/ci-job-viewer/error-line.tsx:36-51 | selected-and-healing first, then selected (the category's style), then healing, then the default hover |
| ErrorLine.SelectionAlwaysVisible | apps/web/reference/ci-job-viewer/error-line.tsx:36-51 | a selected line never shows the unselected styles |
| ErrorLine.LastSegment | apps/web/reference/ci-job-viewer/error-line.tsx:57 | a suffix of the path containing no '/', preceded by '/' when shorter than the path |
| ErrorLine.ExtractFilename | apps/web/reference/ci-job-viewer/error-line.tsx:53-58 | "Global" for a missing or empty path, else its last '/'-separated segment |
| ErrorLine.FilenameOfPath | apps/web/reference/ci-job-viewer/error-line.tsx:53-58 | `dir/name` gives name |
| ErrorLine.RenderErrorLine | apps/web/reference/ci-job-viewer/error-line.tsx:144-155 | defaults category Error and status "Found"; healing iff status is "Healing"; filename and style as resolved |
| ErrorLine.DefaultLine | apps/web/reference/ci-job-viewer/error-line.tsx:144-155 | a line with nothing given is an unselected, not-healing "Found" error |
| WorkerApi.AssertUuid | apps/web/src/lib/worker-api.ts:144-148 | accepts exactly the 8-4-4-4-12 hex text, else fails with "Invalid field" |
| WorkerApi.UuidPatternIff | apps/web/src/lib/worker-api.ts:4-5 | the group-by-group reading of the pattern equals the position-by-position one: hex digits everywhere except dashes at 8, 13, 18 and 23 |
| WorkerApi.UuidCaseInsensitive | apps/web/src/lib/worker-api.ts:4-5 | upper-casing never changes the verdict (the `i` flag) |
| WorkerApi.AssertPathSegmentAsWritten | apps/web/src/lib/worker-api.ts:150-157 | accepts exactly 1 to 200 characters from [A-Za-z0-9._-] |
| WorkerApi.SegmentHasNoSlash | apps/web/src/lib/worker-api.ts:150-157 | an accepted segment contains no '/' |
| WorkerApi.DotSegmentAccepted | apps/web/src/lib/worker-api.ts:150-157 | "." and ".." are accepted |
| WorkerApi.AssertPathSegment | apps/web/src/lib/worker-api.ts:150-157 | as written, but also refusing the dot segments |
| WorkerApi.SegmentIsOneLevel | apps/web/src/lib/worker-api.ts:150-157 | an accepted segment names exactly one path level: no '/', not "." or ".." |
| WorkerApi.AssertBranchName | apps/web/src/lib/worker-api.ts:159-165 | the trimmed value iff it is non-empty, at most 255 characters and free of whitespace, else "Invalid field" |
| WorkerApi.BranchNameStable | apps/web/src/lib/worker-api.ts:159-165 | an accepted name is accepted again unchanged |
| WorkerApi.SafePagination | apps/web/src/lib/worker-api.ts:167-176 | limit in [1, maxLimit] and offset at least 0, in-range inputs unchanged |
| WorkerApi.PaginationNearest | apps/web/src/lib/worker-api.ts:167-176 | each result is the nearest allowed value to its input |
| WorkerApi.PaginationIdempotent | apps/web/src/lib/worker-api.ts:167-176 | clamping a clamped page changes nothing |
| WorkerApi.FailureMessage | apps/web/src/lib/worker-api.ts:210-221 | `body.error` when it is a string, else "Request failed", also for a body that does not parse |
| WorkerApi.FailedResponse | apps/web/src/lib/worker-api.ts:222 | an `ApiError` with the response's status and that message |
| WorkerApi.UnparsableLikeNoError | apps/web/src/lib/worker-api.ts:211-221 | an unparsable body reads like a body without a string error |
| WorkerApi.OfficeName | apps/web/src/lib/worker-api.ts:347-351 | the trimmed name iff it is not blank, else "Invalid office name" |
| WorkerApi.CheckPullRequestDetail | apps/web/src/lib/worker-api.ts:494-498 | with `assertPathSegment` as written: owner, repository name, then a positive pull number, the first failing check naming the error |
| WorkerApi.PullRequestBody | apps/web/src/lib/worker-api.ts:523-530 | the trimmed body, omitted when blank or absent |
| WorkerApi.PreparePullRequest | apps/web/src/lib/worker-api.ts:515-531 | with `assertPathSegment` as written: succeeds iff owner, repository, trimmed title of 1 to 255 characters, head and base all pass, in that order, sending the trimmed fields |
| WorkerApi.PullRequestSent | apps/web/src/lib/worker-api.ts:515-531 | under the path-segment guard as written: a sent pull request has a non-blank title of at most 255 characters, branch names that pass their check again unchanged, and no blank body |
| WorkerApi.DotOwnerReachesRequest | apps/web/src/lib/worker-api.ts:494-498 | the pull-request check passes owner "..", which the corrected guard refuses |
| WorkerApi.ToUiMessages | apps/web/src/lib/worker-api.ts:536-547 | one UI message per stored message |
| WorkerApi.UiMessagesFaithful | apps/web/src/lib/worker-api.ts:536-547 | order, id and role kept; the content is the single text part |
| WorkerApi.UiMessagesAppend | apps/web/src/lib/worker-api.ts:536-547 | converting a concatenation converts each part |
| CodeWorkspace.UpsertById | apps/web/src/components/code-workspace-provider.tsx:71-79 | prepends when the id is absent, else replaces the first row with that id in place |
| CodeWorkspace.UpsertIds | apps/web/src/components/code-workspace-provider.tsx:71-79 | the ids afterwards are the ids before plus the new id; length grows by at most one; other rows are unchanged |
| CodeWorkspace.UpsertIdempotent | apps/web/src/components/code-workspace-provider.tsx:71-79 | upserting the same row twice equals upserting once |
| CodeWorkspace.ResolveSelectedId | apps/web/src/components/code-workspace-provider.tsx:92-111 | the current id if valid, else the stored id if valid, else the first row's; null iff there are no rows, otherwise an id of the rows |
| CodeWorkspace.ResolveStable | apps/web/src/components/code-workspace-provider.tsx:92-111 | a resolved id resolves to itself whatever is stored |
| CodeWorkspace.OfProject | apps/web/src/components/code-workspace-provider.tsx:139-147 | exactly the workspaces of that project |
| CodeWorkspace.WorkspacesOf | apps/web/src/components/code-workspace-provider.tsx:139-147 | empty with no project selected, else the selected project's workspaces |
| CodeWorkspace.OfProjectOrdered | apps/web/src/components/code-workspace-provider.tsx:139-147 | filtering is idempotent and keeps order |
| CodeWorkspace.Provider.constructor | apps/web/src/components/code-workspace-provider.tsx:114-135 | empty lists, nothing selected, loading |
| CodeWorkspace.Provider.RefreshProjects | apps/web/src/components/code-workspace-provider.tsx:150-170 | the new projects with the selection resolved among them, or the error; loading ends |
| CodeWorkspace.Provider.RefreshWorkspaces | apps/web/src/components/code-workspace-provider.tsx:172-186 | the new workspaces, or the error; loading ends |
| CodeWorkspace.Provider.SyncSelectedWorkspace | apps/web/src/components/code-workspace-provider.tsx:187-196 | null whenever no project is selected, else resolved among that project's workspaces |
| CodeWorkspace.Provider.CreateProjectFromRepoUrl | apps/web/src/components/code-workspace-provider.tsx:218-241 | a blank URL is refused with nothing sent or changed; otherwise the trimmed URL is sent, and a created project is upserted and selected |
| CodeWorkspace.Provider.ReceiveProject | apps/web/src/components/code-workspace-provider.tsx:228-240 | the answer is upserted and selected, or becomes the error |
| CodeWorkspace.Provider.CreateWorkspaceForProject | apps/web/src/components/code-workspace-provider.tsx:243-285 | without a given or selected project it fails with nothing sent; the kind defaults to "cloud"; a created workspace is upserted and selected |
| CodeWorkspace.Provider.SendWorkspace | apps/web/src/components/code-workspace-provider.tsx:253-284 | an invalid project id fails before sending; otherwise the request is sent and its answer received |
| CodeWorkspace.Provider.ReceiveWorkspace | apps/web/src/components/code-workspace-provider.tsx:266-284 | the answer is upserted and selected, or becomes the error |
| CodeWorkspace.Provider.NewConversationRequest | apps/web/src/components/code-workspace-provider.tsx:287-304 | the target defaults to "sandbox"; a given workspace wins; for the sandbox target the default is the selected workspace, else the first workspace; for other targets there is none |
| CodeWorkspace.Provider.DefaultWorkspaceOfProject | apps/web/src/components/code-workspace-provider.tsx:287-304 | with nothing given, the request targets the sandbox and a workspace of the selected project when there is one |
| AppSidebar.DeriveRouteMode | apps/web/src/components/app-sidebar.tsx:52-64 | "code" for paths starting "/code"; "chat" for "/" and paths starting "/chat"; "code" otherwise |
| AppSidebar.ChatsIsChat | apps/web/src/components/app-sidebar.tsx:52-64 | a chat path is in chat mode |
| AppSidebar.GetConversationStats | apps/web/src/components/app-sidebar.tsx:66-90 | present iff both preferred-or-fallback values are finite numbers, each clamped to at least 0 |
| AppSidebar.NewerFieldWins | apps/web/src/components/app-sidebar.tsx:70-80 | `lines_added` wins over `additions`, and a non-numeric `lines_added` gives no stats |
| AppSidebar.WithTarget | apps/web/src/components/app-sidebar.tsx:263-277 | exactly the conversations with that target |
| AppSidebar.CodeChatSplit | apps/web/src/components/app-sidebar.tsx:256-277 | with only sandbox and default targets, every conversation is in exactly one of the two lists |
| AppSidebar.WorkspaceMap | apps/web/src/components/app-sidebar.tsx:257-260 | every workspace id maps to a workspace with that id |
| AppSidebar.Placement | apps/web/src/components/app-sidebar.tsx:287-305 | a conversation goes under a project iff its workspace is known and that workspace's project is listed |
| AppSidebar.PlacedUnder | apps/web/src/components/app-sidebar.tsx:287-305 | exactly the conversations placed under that project, or under none |
| AppSidebar.ProjectGroups | apps/web/src/components/app-sidebar.tsx:307-316 | one group per project in project order, empty ones dropped unless loading |
| AppSidebar.BuildGroups | apps/web/src/components/app-sidebar.tsx:278-323 | the loops compute the groups the specification function describes |
| AppSidebar.EmptyLists | apps/web/src/components/app-sidebar.tsx:283-285 | one empty list per project |
| AppSidebar.PushConversations | apps/web/src/components/app-sidebar.tsx:287-305 | each project's list and the unassigned list hold exactly their conversations, in order |
| AppSidebar.CollectGroups | apps/web/src/components/app-sidebar.tsx:307-316 | the collected project groups are the specified ones |
| AppSidebar.GroupsPlaceEveryConversation | apps/web/src/components/app-sidebar.tsx:287-323 | every sandbox conversation lands in exactly one group |
| AppSidebar.ProjectGroupKept | apps/web/src/components/app-sidebar.tsx:307-316 | a non-empty project group is always shown |
| AppSidebar.GeneralLast | apps/web/src/components/app-sidebar.tsx:317-323 | "General" comes last, and only when non-empty |
| UseConversations.ToConversationListError | apps/web/src/features/chat/hooks/use-conversations.ts:33-40 | a 5xx `ApiError` gets the fixed retry text, any other `Error` its message, anything else the default |
| UseConversations.ServerErrorsHidden | apps/web/src/features/chat/hooks/use-conversations.ts:33-36 | a server error's own message is never shown |
| UseConversations.DedupPrepend | apps/web/src/features/chat/hooks/use-conversations.ts:119-124 | unchanged when the id is listed, else the conversation first |
| UseConversations.DedupPrependKeepsIdsDistinct | apps/web/src/features/chat/hooks/use-conversations.ts:119-124 | distinct ids stay distinct, the id is listed afterwards, and a second insert changes nothing |
| UseConversations.NewConversationRequest | apps/web/src/features/chat/hooks/use-conversations.ts:112-118 | each option given wins over the hook's default |
| UseConversations.ConversationsHook.constructor | apps/web/src/features/chat/hooks/use-conversations.ts:49-53 | no conversations, loading, not creating, no error, request counter 0 |
| UseConversations.ConversationsHook.StartLoad | apps/web/src/features/chat/hooks/use-conversations.ts:55-63 | a new request number is taken; loading shows if asked; the error is cleared |
| UseConversations.ConversationsHook.FinishLoad | apps/web/src/features/chat/hooks/use-conversations.ts:73-86 | only the current request writes rows or error, and only it, when it showed loading, hides it |
| UseConversations.ConversationsHook.Unmount | apps/web/src/features/chat/hooks/use-conversations.ts:97-99 | the counter moves on and nothing else changes |
| UseConversations.ConversationsHook.CreateNewConversation | apps/web/src/features/chat/hooks/use-conversations.ts:102-134 | the answer is dedup-prepended, or its message becomes the error and it is passed on; creating ends |
| UseConversations.StaleLoadDiscarded | apps/web/src/features/chat/hooks/use-conversations.ts:55-89 | when an older load answers last, the newer load's rows stay |
| UseConversations.UnmountedLoadDiscarded | apps/web/src/features/chat/hooks/use-conversations.ts:95-100 | a load still in flight at unmount writes nothing |
| UseNosisChat.RequestContent | apps/web/src/hooks/use-nosis-chat.ts:36-44 | the first text part of the last message, or "" |
| UseNosisChat.RequestAfterHistory | apps/web/src/hooks/use-nosis-chat.ts:36-44 | right after the history loads, the content is the last stored message's |
| UseNosisChat.FirstTextSkipsOtherParts | apps/web/src/hooks/use-nosis-chat.ts:38-40 | non-text parts before the first text part are skipped |
| UseNosisChat.ToHistoryError | apps/web/src/hooks/use-nosis-chat.ts:19-28 | a 5xx `ApiError` becomes the fixed retry error, other errors pass unchanged, a non-error becomes the default error |
| UseNosisChat.HistoryErrorIdempotent | apps/web/src/hooks/use-nosis-chat.ts:19-28 | mapping twice equals mapping once |
| UseNosisChat.LoadHistory | apps/web/src/hooks/use-nosis-chat.ts:66-77 | a second request is made exactly when the first failed with a 5xx `ApiError`, and its outcome is final; otherwise the first outcome is |
| UseNosisChat.NoRetryOnClientError | apps/web/src/hooks/use-nosis-chat.ts:66-77 | any other failure is rethrown as is |
| UseNosisChat.ChatHistory.constructor | apps/web/src/hooks/use-nosis-chat.ts:54-57 | hydrating, no error, no messages |
| UseNosisChat.ChatHistory.StartEffect | apps/web/src/hooks/use-nosis-chat.ts:59-64 | on a conversation change messages are cleared, the error reset and hydrating set, before loading |
| UseNosisChat.ChatHistory.Cleanup | apps/web/src/hooks/use-nosis-chat.ts:102-104 | the run is cancelled and nothing else changes |
| UseNosisChat.ChatHistory.Settle | apps/web/src/hooks/use-nosis-chat.ts:79-101 | a cancelled run changes nothing; a live one shows the history or the mapped error and stops hydrating |
| UseNosisChat.SwitchConversation | apps/web/src/hooks/use-nosis-chat.ts:59-104 | a first load settling after a switch is ignored; the second conversation's history shows |
| DesktopCommands.Utf8LenBounds | src-tauri/src/commands.rs:175-181 | a string takes one to four bytes per character |
| DesktopCommands.Utf8LenAscii | src-tauri/src/commands.rs:175-181 | the byte length equals the character count iff the text is ASCII |
| DesktopCommands.SanitizeDbError | src-tauri/src/commands.rs:35-40 | the front end gets "Operation failed" whatever the failure |
| DesktopCommands.SanitizeHidesDetail | src-tauri/src/commands.rs:35-40 | any two database failures read the same |
| DesktopCommands.Hex | src-tauri/src/commands.rs:54 | lower-case hex without leading zeros, one digit iff below 16 |
| DesktopCommands.HexRoundTrip | src-tauri/src/commands.rs:54 | the hex text reads back as its number |
| DesktopCommands.IdTextInjective | src-tauri/src/commands.rs:42-55 | ids whose timestamps have equally many hex digits are equal iff timestamp and counter are |
| DesktopCommands.IdTextAmbiguous | src-tauri/src/commands.rs:54 | without that condition two different pairs can give the same id |
| DesktopCommands.IdSource.constructor | src-tauri/src/commands.rs:46 | the counter starts at 0 |
| DesktopCommands.IdSource.GenId | src-tauri/src/commands.rs:42-55 | the timestamp's hex, then the counter's value before the call; the counter moves on by one, wrapping at 2^32 |
| DesktopCommands.TwoIdsSameInstant | src-tauri/src/commands.rs:42-55 | two ids taken in a row at the same instant differ |
| DesktopCommands.CheckTitle | src-tauri/src/commands.rs:75-117 | a title is accepted iff it is at most 500 bytes, else the title error |
| DesktopCommands.ShortTitlesFit | src-tauri/src/commands.rs:75-77 | any title of at most 125 characters fits |
| DesktopCommands.ValidateMessage | src-tauri/src/commands.rs:169-196 | accepted iff the role is user, assistant or system, content at most 100000 bytes, model at most 100 bytes, and no negative token count; the first failing check names the error |
| DesktopCommands.CreateConversation | src-tauri/src/commands.rs:65-95 | no pool fails first; then an id is taken, and the title, defaulting to "New Conversation", is checked; the insert's failure reads "Operation failed" |
| DesktopCommands.DefaultTitleFits | src-tauri/src/commands.rs:72-77 | the default title passes the check |
| DesktopCommands.UpdateConversationTitle | src-tauri/src/commands.rs:108-127 | the title is checked before the pool; success iff the title fits, the pool exists and the update succeeds |
| DesktopCommands.SaveMessage | src-tauri/src/commands.rs:159-237 | every check runs before the pool lookup and the id: a rejected message takes no id; a saved one carries the new id and the given fields |
| DesktopCommands.SavedMessagesAreValid | src-tauri/src/commands.rs:159-237 | a saved message has a valid role, content within the limit and no negative token count |
| WorkerRoutes.CorsOrigin | apps/worker/src/index.ts:61-72 | "tauri://localhost" as is, "http://localhost:1420" only in development, "" for any other origin |
| WorkerRoutes.CorsOutsideDevelopment | apps/worker/src/index.ts:61-72 | outside development only the desktop origin is echoed |
| WorkerRoutes.ContentTypeGuard | apps/worker/src/index.ts:114-125 | a POST, PATCH or PUT whose content type does not start with "application/json" is refused with 415; everything else passes |
| WorkerRoutes.ContentTypeExamples | apps/worker/src/index.ts:114-125 | a JSON type with parameters passes, a POST without a header does not, a DELETE always passes |
| WorkerRoutes.FirstStage | apps/worker/src/index.ts:80-125 | `/health`, the auth routes and `/migrate` answer before the guard; everything else meets the guard first |
| WorkerRoutes.AuthFormsBypassGuard | apps/worker/src/index.ts:82-125 | an auth form post is handed to the auth library, while the same post to another API path is refused |
| WorkerRoutes.Migrate | apps/worker/src/index.ts:95-111 | 404 outside development; in development a throwing `getMigrations` goes to `onError` and nothing runs; otherwise migrations run iff something is to be created or added, answering with the created tables and added columns, or through `onError` when `runMigrations` throws |
| WorkerRoutes.MigrateCrashIs500 | apps/worker/src/index.ts:100-106 | a non-HTTP error thrown by either migration step reaches the client as a 500 with the fixed text |
| WorkerRoutes.MigrateHiddenOutsideDevelopment | apps/worker/src/index.ts:95-98 | outside development `/migrate` answers like an unknown path and never migrates |
| WorkerRoutes.NotFound | apps/worker/src/index.ts:300 | a 404 |
| WorkerRoutes.NewConversationTitle | apps/worker/src/index.ts:166-167 | "New Conversation" when the title is undefined, else the title check's verdict |
| WorkerRoutes.UntitledAlwaysAccepted | apps/worker/src/index.ts:166-167 | a body without a title always gets a title |
| WorkerRoutes.OnError | apps/worker/src/index.ts:302-318 | an `HTTPException` keeps its status and its redacted message; anything else is 500 "Internal server error" |
| WorkerRoutes.UnhandledHidden | apps/worker/src/index.ts:316-317 | an unexpected error's message never reaches the client |
| WorkerRoutes.RefusalIs415 | apps/worker/src/index.ts:114-125 | a request refused by the guard reaches the client as a 415 |

## Left out

- Network, database and Tauri I/O are outcome parameters of the operations that use them. This covers `fetch`, timeouts and abort signals, D1 and SQLite queries, the Letta agent service, the model stream, MCP transports, and better-auth. In the MCP connections, `invoke("get_api_key")`, `invoke("start_oauth_callback_server")` and the two `listen` registrations are outcomes that can fail.
- McpClients.GetActiveTools: the listed servers are a parameter; a failure of `invoke("list_mcp_servers")` is not modelled.
- DesktopCommands.SanitizeDbError: the `eprintln!` log of the error detail is not modelled.
- Concurrency is sequential steps over lists of outcomes. This covers `Promise.all`, `Promise.allSettled`, background `schedule`d tasks and React's scheduling. Only the agent claim race is modelled as an interleaving of await steps.
- Randomness is not modelled. The random bytes of `generateOAuthState` are an input (only their encoding is modelled), and `crypto.randomUUID` ids are inputs.
- Time is not modelled: the clock is a parameter. The 300 ms pause before the history retry, the 30-second request timeout and the worker's body-size limits are left out.
- `localStorage` is not accessed. The stored selection is a parameter.
- JavaScript numbers are integers in the model. `Math.floor` in `safePagination` is not modelled, and non-finite and fractional numbers are one "non-finite" case in `getConversationStats`.
- String lengths count characters, not UTF-16 code units, except in the desktop commands, which count UTF-8 bytes.
- JavaScript `Set` insertion order is not modelled. `selectedErrors` is a map from the selected ids present in the error map, in no order. `getAllOrgs` and `getProjectsForOrg` do keep first-seen order.
- McpClients.OAuthWait: an event fired before both listeners are registered is not modelled.
- McpClients.GetActiveTools: connected clients are listed in server order, not in connection-completion order.
- McpClients.ConnectWithOAuth: the redirect URL update and the OAuth provider's token storage are outside this model.
- WorkerRoutes.FirstStage: the auth routes are modelled as paths starting "/api/auth/". The CORS and secure-header middleware that run before them are left out, and so is the session middleware after the guard.
- WorkerRoutes.OnError: secret redaction lives in a file that is not part of this model. It is a parameter.
- WorkerRoutes.NewConversationTitle: `validateTitle` lives in a file that is not part of this model. It is a parameter.
- The worker's remaining route handlers are left out, and so are its request validators. Both live in files that are not part of this model.
- Desktop commands `list_conversations`, `get_messages` and `delete_conversation` only map a query's error, and `register_hotkey` only toggles a window. They are left out.
- The desktop `save_message` transaction is one outcome parameter. Its begin, update, insert and commit steps are not modelled separately.
- Rendering is left out: JSX, icons, class names beyond the line-style choice, and the UI component library.
- `run-data-context.tsx` is left out.
- The mock runs' display-only fields (commit messages, log lines and file contents) are left out. Only ids, job keys, statuses, orgs, projects and run numbers are kept.

## Findings

The job list and the pull-request checks call the code as written, so they show each discrepancy. The corrected definitions stand beside them, and their intended properties are proved.

| source | as written | input that shows it | evidently intended | confidence | as-written member | corrected member |
|---|---|---|---|---|---|---|
| apps/web/reference/ci-job-viewer/mock-data.ts:900-906 | `errorIdToJobKey` returns the text before the first '-', mapping only "mig" specially | the error id "types-0" of the third run maps to "types", but that run's job is "check-types", so its type errors belong to no job and are deselected as hidden | "types" maps to "check-types", as "mig" maps to "migrations" | not executed | JobList.TypesErrorsAlwaysHidden | MockData.ErrorIdToJobKey |
| apps/web/src/lib/worker-api.ts:150-157 | `assertPathSegment` accepts any 1 to 200 characters from [A-Za-z0-9._-] | owner ".." passes, so the request path `/api/github/repos/../…` climbs a level once dot segments are removed (section 5.2.4 of RFC 3986) | a segment names exactly one level: "." and ".." are refused | not executed | WorkerApi.DotOwnerReachesRequest | WorkerApi.AssertPathSegment |
| packages/agent-runtime/src/index.ts:163-166 | the user message is saved and the tools loaded under one `Promise.all`, and the tools' cleanup is only scheduled after the stream starts | the save rejects while the tool load succeeds: `Promise.all` rejects, the loaded tools are dropped and their cleanup never runs | tools that loaded are released when the request fails before the stream | not executed | AgentRuntime.StreamAgentChat | AgentRuntime.StreamAgentChatReleasingTools |
