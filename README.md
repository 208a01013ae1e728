# Omni-IDE core, modelled in Dafny

Omni-IDE is a desktop IDE. A Python backend (FastAPI) serves a web frontend and
runs a code-writing agent. The agent's file helpers confine writing to the
folder the user has opened, as far as their string tests reach: an update mode
such as `r+` escapes them, as does a sibling folder whose name extends the
open folder's name. This project models the decision logic of that system and proves
what it promises:

- **`Onboarding`** (`onboarding.dfy`) — the first-run setup wizard of the
  frontend. It is a class whose fields are the component's React state, plus
  the interval's liveness, the key the interval closure captured, the pending
  2-second hide timer, and logs of the posted requests and page reloads. Each
  handler is one method for the click and one for the settling of its request,
  and each interval tick is one method. Every `fetch` is an outcome passed in
  by the caller. The methods ending in `Scenario` are example traces (the
  hybrid install, a server-reported error, a failed start, the cloud save and
  the hidden or disabled wizard), checked by assertions along the way; they
  state no contract of their own.
- **`Agent`** (`agent.dfy`) — the sandbox guards of the agent's file helpers,
  covering the open-folder test, the joined and resolved path, and the
  string-prefix containment test. Also modelled here: the cleaner applied to
  each generated code blob, and the choice of the single reply that
  `execute_stream` yields.
- **`Server`** (`server.dfy`) — the backend's global state: the server's and
  the agent's `WORKING_DIRECTORY`. Also the folder listing (filter loop and
  sort), the 400/403/404 guard order of the four file endpoints, the chat
  endpoint, and the websocket registry.
- **`Cleanup`** (`cleanup.dfy`) — the legacy cleanup script. It moves dead
  files and folders into a backup folder and rewrites `requirements.txt`. If
  the smoke test returns a failure, it rolls everything back; if the smoke
  test raises, the script crashes with nothing rolled back. The backend folder and its
  backup folder are one map from locations to contents.
- **`Audit`** (`audit.dfy`) — the production audit's recorder: result lines and
  the three counters. Also the key mask, the port check, the status report
  with its verdict and notices, and the exit code.
- **`ReleaseTests`** (`release.dfy`) — the release test runner's recorder and
  its GO / CONDITIONAL GO / NO-GO verdict.
- **`Strings`** (`strings.dfy`) — Python string behaviour the models rely on:
  `startswith`, `in`, `strip`, `split`, `join`, list filtering, `str` of a
  natural number, and lexicographic `str` comparison.

Five facts about the code as written are proved as lemmas rather than
corrected:

- The sandbox's containment test compares strings, not path components. A
  sibling folder whose name extends the open folder's name passes it
  (`Agent.SiblingFolderPassesSandbox`).
- `safe_open` holds only modes containing `w`, `a` or `x` to the sandbox. An
  update mode such as `r+` writes, yet opens a file outside the open folder
  (`Agent.UpdateModeOpensOutside`).
- A dead requirement line takes the comment line most recently kept above it.
  So consecutive comments above consecutive dead lines all go
  (`Cleanup.CommentsCascade`).
- A missing `requirements.txt` crashes the cleanup after the moves, and nothing
  is moved back (`Cleanup.Workspace.RunCleanup`).
- The smoke test's `subprocess.run` calls carry a 30-second timeout and no
  `try`, so a timeout or an interpreter that will not start crashes the
  cleanup after the moves and the rewrite, again with nothing moved back
  (`Cleanup.Workspace.RunCleanup`).

Where the prose description of the system and the code differ, the model
follows the code. `fetch` resolves on any HTTP status, so a non-2xx save reply
still hides the wizard and reloads the page. The Install button's enabling
makes the interval's captured key non-empty, so the 2-second hide branch of a
completed install is unreachable from the UI. `Onboarding.Wizard.IntervalTick`
proves this.

## Model

| member | source | states |
|---|---|---|
| Onboarding.InstallTarget | frontend/components/OnboardingWizard.tsx:184-196 | the 7b model exactly when the recommendation is `HYBRID_PRO`, the 3b model otherwise |
| Onboarding.TickDecision | frontend/components/OnboardingWizard.tsx:44-69 | polling continues exactly on a fetched non-terminal status; a completed install saves the captured key exactly when it is non-empty and schedules the delayed hide exactly when it is empty; a rejected fetch or an `error` status stops without finishing |
| Onboarding.Wizard.constructor | frontend/components/OnboardingWizard.tsx:15-21 | the initial `useState` values; nothing renders |
| Onboarding.Wizard.EditKey | frontend/components/OnboardingWizard.tsx:142-143 | only the key field changes; the key captured by a live interval is kept |
| Onboarding.Wizard.CheckStatus | frontend/components/OnboardingWizard.tsx:27-42 | on success the status is stored and the wizard is raised exactly when no Gemini key is stored, whatever the daemon and models say; on failure only `loading` drops; afterwards (from a hidden wizard) it renders exactly when the fetch succeeded without a stored key |
| Onboarding.Wizard.SaveKeySilently | frontend/components/OnboardingWizard.tsx:71-83 | the key is posted once; a resolved post hides the wizard and reloads once; a rejected one changes nothing else |
| Onboarding.Wizard.HandleInstallLocal | frontend/components/OnboardingWizard.tsx:85-93 | callable only with a visible wizard, no running install, a running daemon and a non-empty key (render gate, button enabling at line 197); shows the start message, posts the target model once and leaves the request pending with the typed key captured; no interval runs yet |
| Onboarding.Wizard.InstallSettles | frontend/components/OnboardingWizard.tsx:89-103 | without a pending request nothing changes; a settled request starts the interval, a failed one resets `installingLocal` and shows the failure message; the captured key stays non-empty |
| Onboarding.Wizard.IntervalTick | frontend/components/OnboardingWizard.tsx:44-69 | a cleared interval changes nothing; otherwise the new state is the one `TickDecision` calls for, with the progress message shown; with a captured key a completed install always takes the save branch, never the delayed hide |
| Onboarding.Wizard.HideTimerFires | frontend/components/OnboardingWizard.tsx:57-60 | a pending hide hides the wizard and reloads once; with none pending nothing changes |
| Onboarding.Wizard.HandleSaveKey | frontend/components/OnboardingWizard.tsx:106-108 | callable only with the wizard visible (render gate); a click on the disabled button (a save pending or an empty key, line 159) or the empty-key return changes nothing; otherwise the typed key is posted once and the save is pending; while it is pending the button stays disabled, so a second click posts nothing |
| Onboarding.Wizard.SaveSettles | frontend/components/OnboardingWizard.tsx:109-110 | without a pending save nothing changes; a resolved post hides the wizard and reloads once, a rejected one changes nothing else; `savingKey` ends false either way |
| Agent.GetBasePath | backend/agent.py:33-38 | the open folder exactly when `WORKING_DIRECTORY` is truthy, else the no-folder error |
| Agent.StripLeadingSeparators | backend/agent.py:43 | the result is a suffix of the name; what was removed is the whole leading run of `/` followed by backslashes only, and the result never starts with `\`, so exactly that run of backslashes went too; without backslashes the result never starts with `/` |
| Agent.SafeWrite | backend/agent.py:40-52 | no folder gives the no-folder error; otherwise the resolved target is written exactly when it starts with the resolved folder, else the path-traversal error names the stripped name |
| Agent.SafeOpen | backend/agent.py:54-71 | opening succeeds exactly when the mode contains none of `w`, `a`, `x` or the resolved path is in the sandbox; the opened path is the resolved one |
| Agent.UpdateModeOpensOutside | backend/agent.py:65 | `r+`, which writes, contains none of `w`, `a`, `x`, so `/etc/passwd` opens from a folder `/w/app` it lies outside of |
| Agent.SafeMkdir | backend/agent.py:73-87 | the directory is made exactly when the resolved path is in the sandbox |
| Agent.SafeDelete | backend/agent.py:89-115 | the sandbox test comes first, then existence; the removal succeeds exactly for an existing file or folder inside the sandbox, with the matching message; any other existing entry inside the sandbox is the cannot-delete error |
| Agent.SiblingFolderPassesSandbox | backend/agent.py:44-47 | writing `../app2/notes.txt` from `/w/app` is allowed and lands in the sibling folder `/w/app2` |
| Agent.SiblingTarget | backend/agent.py:43-44 | the sibling name survives stripping and resolves to `/w/app2/notes.txt` |
| Agent.SiblingNameKept | backend/agent.py:43 | a name starting with `.` is not stripped |
| Agent.SiblingJoin | backend/agent.py:44 | a relative name is joined under the folder |
| Agent.SiblingInSandbox | backend/agent.py:46 | `/w/app2/...` starts with `/w/app` |
| Agent.CleanCodeOutput | backend/agent.py:169-184 | input whose cleaned form is empty is returned unchanged; otherwise the result starts with the cleaned code and contains `final_answer`, and it is the cleaned code itself exactly when that already mentions `final_answer`, else the cleaned code plus the `final_answer("Done!")` line |
| Agent.CompletedHasFinalAnswer | backend/agent.py:182-183 | appending the suffix keeps the code as a prefix and adds a `final_answer` call |
| Agent.KeptLinesExact | backend/agent.py:170-176 | the kept lines are exactly the input lines that are not chatter, in order |
| Agent.CleanCodeWithoutNoise | backend/agent.py:169-184 | a blob without chatter lines is only stripped, then completed when it has no `final_answer` |
| Agent.LastAnswer | backend/agent.py:434-437 | there is no answer exactly when no step records one |
| Agent.LastAnswerIsLatest | backend/agent.py:425-437 | the answer is that of the last step that records one |
| Agent.ReplyIsLastAnswer | backend/agent.py:442-445 | without an exception the reply is the last answer when it is non-empty, else `Task completed.` |
| Agent.ExecuteStream | backend/agent.py:419-452 | exactly one string is yielded: the error text when the run raised, else the reply above |
| Server.Classify | backend/main.py:104-110 | hidden names other than `.env` are skipped; a file is listed exactly when its extension is safe; a directory exactly when it is not ignored; the row keeps the entry's name |
| Server.CollectedMembers | backend/main.py:103-110 | the collected rows are exactly the rows of the scanned entries |
| Server.ItemLeTotal | backend/main.py:113 | the sort key orders any two rows |
| Server.ItemLeTransitive | backend/main.py:113 | the sort key is transitive |
| Server.Insert | backend/main.py:113 | inserting adds exactly that row |
| Server.InsertChained | backend/main.py:113 | inserting into an adjacently ordered run keeps it ordered |
| Server.ChainedSorted | backend/main.py:113 | adjacent order implies order of every pair |
| Server.SortItems | backend/main.py:113 | sorting is a permutation |
| Server.SortItemsSorted | backend/main.py:113 | the sorted rows are ordered directories-first, then by name |
| Server.SortItemsChained | backend/main.py:113 | the sorted rows are adjacently ordered |
| Server.ListingIsSortedRows | backend/main.py:102-114 | the listing is sorted, a permutation of the collected rows, and shows exactly the rows of the scanned entries |
| Server.FileGuard | backend/main.py:119-227 | no folder is 400; then a resolved path outside the resolved folder is 403; then a missing target is 404 (reading and serving need a regular file, deleting an existing entry, saving nothing); each answer exactly under its condition, and an allowed request uses the resolved path |
| Server.DeleteRemoval | backend/main.py:216-219 | a file is removed, a folder removed as a tree, anything else left alone |
| Server.Backend.constructor | backend/main.py:21 | no folder is open |
| Server.Backend.ChangeDirectory | backend/main.py:62-73 | only a path that resolves to an existing directory becomes the folder, stored resolved; otherwise 400 and nothing changes; the agent's folder is untouched |
| Server.Backend.CloseFolder | backend/main.py:75-86 | both the server's and the agent's folder are closed |
| Server.Backend.ListFiles | backend/main.py:88-117 | no folder gives the no-directory reply; a failed scan the error; otherwise the sorted permutation of the collected rows and the folder |
| Server.Backend.Chat | backend/main.py:258-284 | without a folder the fixed reply and the agent is not run; otherwise the agent gets the server's folder and the reply is the joined stream |
| Server.Concat | backend/main.py:270-274 | a one-token stream joins to that token |
| Server.ConcatAppend | backend/main.py:270-274 | joining two parts of a stream is joining each part and concatenating, so each new chunk is appended to the reply |
| Server.FirstIndex | backend/main.py:297 | the index of the first occurrence |
| Server.RemoveFirst | backend/main.py:295-297 | an absent socket leaves the list; a present one loses exactly one occurrence, its first, and the other connections keep their order |
| Server.ConnectDisconnect | backend/main.py:291-297 | connecting a new socket and disconnecting it restores the registry |
| Server.ConnectionManager.constructor | backend/main.py:288-289 | the registry starts empty |
| Server.ConnectionManager.Connect | backend/main.py:291-293 | the socket is appended |
| Server.ConnectionManager.Disconnect | backend/main.py:295-297 | the first entry of the socket is removed, if any |
| Cleanup.DropDeadSound | backend/cleanup_v2.py:138-153 | every kept line is an input line and no dead line survives |
| Cleanup.DropDeadKeepsLive | backend/cleanup_v2.py:138-153 | apart from comments, exactly the lines that are neither dead nor comments are kept, in order |
| Cleanup.DropDeadBounds | backend/cleanup_v2.py:145-151 | each dead line removes itself and at most one comment |
| Cleanup.DropDeadSnoc | backend/cleanup_v2.py:138-153 | one loop pass: a live line is appended; a dead line pops a trailing comment |
| Cleanup.CommentsCascade | backend/cleanup_v2.py:145-151 | two comments above two dead lines all go |
| Cleanup.InsertAfterRemovable | backend/cleanup_v2.py:159-165 | dropping the added `litellm` lines gives back the input |
| Cleanup.InsertAfterCount | backend/cleanup_v2.py:159-165 | one `litellm` line per `smolagents` line |
| Cleanup.InsertAfterLines | backend/cleanup_v2.py:159-165 | no line besides the input lines and `litellm` appears |
| Cleanup.LitellmLineFacts | backend/cleanup_v2.py:163 | the added line mentions `litellm` and is not dead |
| Cleanup.InsertAfterPlacement | backend/cleanup_v2.py:159-165 | when the added line is not itself marked and not among the input lines, every marked line is directly followed by it, and it appears only directly after a marked line |
| Cleanup.CleanedRequirementsProperties | backend/cleanup_v2.py:123-170 | no dead dependency survives; with a surviving `litellm` line the kept lines are the result; otherwise the non-comment lines other than the added one are the live input lines in order, there are as many `litellm` lines as `smolagents` lines, each `smolagents` line is directly followed by one and each added line directly follows one |
| Cleanup.MoveEntry | backend/cleanup_v2.py:89 | after a move the destination holds the source's content and the source is gone |
| Cleanup.StashStep | backend/cleanup_v2.py:80-106 | backing up one more present name extends the stashed set |
| Cleanup.RestoreStep | backend/cleanup_v2.py:109-120 | restoring one more name extends the restored set |
| Cleanup.RestoreMoves | backend/cleanup_v2.py:111-112 | a present backup is moved back |
| Cleanup.RestoreSkips | backend/cleanup_v2.py:111 | an absent backup changes nothing |
| Cleanup.PresentStep | backend/cleanup_v2.py:254-265 | the present names grow by the next name when it exists |
| Cleanup.NamesOfSnoc | backend/cleanup_v2.py:256-265 | one more pair adds its name |
| Cleanup.RequirementsNotDead | backend/cleanup_v2.py:31-60 | `requirements.txt` and its backup are not dead names |
| Cleanup.RollbackIsExact | backend/cleanup_v2.py:240-307 | when no backup of a moved name existed, the rollback leaves the folder as it was plus the backup copy of `requirements.txt` |
| Cleanup.Workspace.constructor | backend/cleanup_v2.py:248 | the workspace holds the given entries |
| Cleanup.Workspace.BackupFile | backend/cleanup_v2.py:80-91 | a missing file is skipped; otherwise it moves to the backup and the pair is returned |
| Cleanup.Workspace.BackupDir | backend/cleanup_v2.py:94-106 | as above, a stale backup tree being replaced |
| Cleanup.Workspace.BackupEntry | backend/cleanup_v2.py:255-263 | the backup of one name, by file or by folder |
| Cleanup.Workspace.Restore | backend/cleanup_v2.py:109-120 | a present backup is moved back, otherwise nothing changes |
| Cleanup.Workspace.CleanRequirements | backend/cleanup_v2.py:123-170 | exactly when the file is readable: the backup gets the old lines and the file the cleaned lines |
| Cleanup.Workspace.BackupAll | backend/cleanup_v2.py:253-265 | the present names are stashed and listed as live-to-backup pairs |
| Cleanup.Workspace.RestoreAll | backend/cleanup_v2.py:290-294 | every listed name is restored |
| Cleanup.Workspace.RunCleanup | backend/cleanup_v2.py:240-307 | an unreadable `requirements.txt` crashes after the moves with nothing restored; a smoke test that raises crashes after the moves and the rewrite with nothing restored; a passing smoke test exits 0 with everything stashed and the file rewritten; a failing one exits 1 after restoring the moved names and the file |
| Cleanup.DropDeadLines | backend/cleanup_v2.py:136-153 | the loop computes `DropDead`; every kept line is an input line and not dead |
| Cleanup.InsertAfterLoop | backend/cleanup_v2.py:159-165 | the loop computes `InsertAfter`; only input lines and the added line appear |
| Cleanup.BackupLoopStep | backend/cleanup_v2.py:254-265 | one backup pass keeps the loop's invariant |
| Cleanup.RestoreLoopStep | backend/cleanup_v2.py:290-294 | one restore pass keeps the loop's invariant |
| Cleanup.StashedNothing | backend/cleanup_v2.py:253 | stashing nothing changes nothing |
| Cleanup.RestoredNothing | backend/cleanup_v2.py:290 | restoring nothing changes nothing |
| Cleanup.RequirementsUntouched | backend/cleanup_v2.py:254-265 | the moves leave `requirements.txt` and its backup slot alone |
| Cleanup.RequirementsBackupKept | backend/cleanup_v2.py:290-296 | the rollback leaves the requirements backup in place |
| Audit.Repeat | backend/production_audit.py:239 | `c * n` has length `n` and only `c` |
| Audit.PadRight | backend/production_audit.py:44 | padding keeps the text as a prefix, pads with spaces to the width and never truncates |
| Audit.LogLineLayout | backend/production_audit.py:44 | a log line starts with `  [`, shows the status at column 3 padded to width 4, then `]`, and ends with the separator and the message |
| Audit.Auditor.constructor | backend/production_audit.py:34-37 | no lines and zero counters |
| Audit.Auditor.Log | backend/production_audit.py:40-52 | one more line; only the counter of the line's status moves, and a status other than PASS/FAIL/WARN moves none; each counter stays the number of lines logged with its status |
| Audit.Auditor.AuditAgentConfig | backend/production_audit.py:166-189 | the key, agent module and `.env` lines and statuses in order; the pass count grows by the passing checks, only a missing `agent.py` adds a failure, and the warnings are a missing key and a missing `.env` |
| Audit.Auditor.AuditPort | backend/production_audit.py:195-210 | one port line and its status; never a failure; exactly one of the pass and warning counts grows, as the port check decides |
| Audit.Auditor.GenerateReport | backend/production_audit.py:237-276 | the report text is the report lines joined with newlines; from a recorder whose lines are all log lines, those lines carry ACTION REQUIRED exactly when something failed, which is exactly when the exit code is 1, and ADVISORY exactly when something warned |
| Audit.ChosenKey | backend/production_audit.py:170 | the first variable when it is set and non-empty, else the second |
| Audit.MaskKey | backend/production_audit.py:172 | the first `min(4, n)` characters, `****`, the last `min(4, n)` characters |
| Audit.MaskHidesMiddle | backend/production_audit.py:172 | keys with the same first and last four characters get the same mask |
| Audit.MaskRevealsShortKey | backend/production_audit.py:172 | a key of at most eight characters can be read back from its mask |
| Audit.KeyCheck | backend/production_audit.py:171-175 | PASS with the masked key exactly when a non-empty key was found, WARN otherwise |
| Audit.PortDigits | backend/production_audit.py:31 | helper for the port messages: the port prints as `8000` |
| Audit.AgentModuleCheck | backend/production_audit.py:177-182 | FAIL exactly when `agent.py` is missing |
| Audit.EnvFileCheck | backend/production_audit.py:184-189 | WARN exactly when `.env` is missing |
| Audit.PortCheck | backend/production_audit.py:199-210 | PASS, with the free-port message, exactly when `connect_ex` returned any non-zero error number (refused, timed out or unreachable); an accepted connection (error 0) or a probe exception is WARN with its message |
| Audit.Verdict | backend/production_audit.py:238 | GO exactly when nothing failed, NO-GO exactly when something did |
| Audit.Header | backend/production_audit.py:240-251 | the header is eleven lines |
| Audit.Summary | backend/production_audit.py:252-259 | the summary block is seven lines |
| Audit.ReportKeepsResults | backend/production_audit.py:251-258 | the logged lines follow the header in order, then the summary line and the verdict |
| Audit.NotNotice | backend/production_audit.py:260-263 | a line with another third character is no notice |
| Audit.NotNoticeByLength | backend/production_audit.py:260-263 | a line of another length is no notice |
| Audit.HeaderHasNoNotice | backend/production_audit.py:240-251 | no header line is a notice |
| Audit.SummaryHasNoNotice | backend/production_audit.py:252-259 | no summary line is a notice |
| Audit.ClosingHasNoNotice | backend/production_audit.py:264-267 | no closing line is a notice |
| Audit.ResultsHaveNoNotice | backend/production_audit.py:44 | no log line is a notice |
| Audit.ReportNotices | backend/production_audit.py:260-263 | the report carries ACTION REQUIRED exactly when something failed and ADVISORY exactly when something warned |
| Audit.ExitCode | backend/production_audit.py:297 | the exit code is 0 or 1 |
| Audit.ExitCodeMatchesReport | backend/production_audit.py:238-297 | the process succeeds exactly on a GO verdict and fails exactly when the report asks for action |
| ReleaseTests.StatusOf | backend/run_release_tests.py:8 | PASS exactly when the condition holds, FAIL exactly when it does not |
| ReleaseTests.CountStatus | backend/run_release_tests.py:135-136 | a count never exceeds the number of results |
| ReleaseTests.CountStatusSnoc | backend/run_release_tests.py:9 | one more record raises only the count of its own status |
| ReleaseTests.PassesPlusFails | backend/run_release_tests.py:135-137 | since every recorded status is PASS or FAIL, passes plus fails is the number of results |
| ReleaseTests.NoFailsAllPass | backend/run_release_tests.py:136-138 | no failure exactly when every result passed |
| ReleaseTests.Verdict | backend/run_release_tests.py:138 | GO exactly with no failure, CONDITIONAL GO exactly with one or two, NO-GO exactly with more |
| ReleaseTests.VerdictMonotone | backend/run_release_tests.py:138 | more failures never give a better verdict |
| ReleaseTests.RecordingKeepsVerdictOrder | backend/run_release_tests.py:7-9 | recording a result never improves the verdict, and a pass never changes it |
| ReleaseTests.Recorder.constructor | backend/run_release_tests.py:5 | no results |
| ReleaseTests.Recorder.Test | backend/run_release_tests.py:7-11 | one record appended in call order, PASS exactly when the condition holds; the pass and fail counts move accordingly |
| ReleaseTests.Recorder.Summary | backend/run_release_tests.py:135-138 | the counts of the results, which add up to the number of tests, and their verdict |

## Left out

- Rendering: the JSX markup, CSS, icons, `console.error` and `console.log` are not modelled. The render gate and the button conditions are kept as predicates.
- Timers, `fetch` and the page: `setInterval`/`setTimeout` are discrete ticks and a pending flag. `window.location.reload` is a counter. Fetch results are parameters. Overlapping polls are not modelled: one tick runs at a time. Each handler is split into its click and the settling of its request, but React's batching of state updates within one step is not modelled.
- The filesystem: `Path.resolve()`, `is_absolute`, existence and kind are an abstract `PathEnv`. File contents, `mkdir`, `open`, `os.remove`, `shutil.rmtree`, `shutil.move`, `shutil.copy2`, `aiofiles` and `os.scandir` are modelled only as the decisions around them, or as a map from locations to contents.
- Agent.SafeWrite, Agent.SafeOpen, Agent.SafeMkdir, Agent.SafeDelete: each returns the path or message the helper would act on. The write, open, mkdir or delete itself is out of scope. The `str(...)` of a `Path` is taken to be the resolved string. A raised exception is an `Err` value.
- The smolagents and Hugging Face libraries: `CodeAgent`, the `parse_code_blobs` patch, and the vision tool and its lock. `execute_stream` runs over an abstract sequence of steps plus an optional exception text. A client disconnect (`GeneratorExit`), which yields nothing, is not modelled.
- Agent.CleanCodeOutput: `\d` in the heading pattern is taken to be ASCII digits only. Python's `re` also accepts other Unicode decimal digits.
- Server.Backend.Chat: the `TypeError` fallback to async iteration and the 500 reply for an agent crash are not modelled. An exception inside the stream becomes the `Error:` reply, as `execute_stream` yields it.
- The file endpoints' 500 replies for exceptions while reading, writing or deleting are left out, since they come from the filesystem. Static file serving, `/health`, `run_code` and the websocket receive loop are left out. `run_code` runs a subprocess.
- Server.ConnectionManager: websockets are identified by number. `accept` and `send_json` are I/O.
- Cleanup: console output, `os.makedirs` of the backup folder, and the smoke test's subprocesses are left out. The smoke test's outcome (passed, failed, or raised out of `subprocess.run`) is a parameter. Directory trees are opaque values, so a directory moves as one entry.
- Cleanup.Workspace.RunCleanup: `restore_requirements` is modelled as copying the backup back when it exists. The backup's own slot is left as is.
- Audit: the dependency, static-asset, execution-engine and build audits are left out. They import modules, read files and run subprocesses. Console output and the icons of `log` are left out. So are the file write of `generate_report`, and the date, platform and Python version, which are parameters.
- Cleanup.Workspace.CleanRequirements: the file's text is modelled as the list `readlines` returns. `writelines` writes the lines' concatenation, so when the last kept line is a `smolagents` line without a trailing newline, the added `litellm` line fuses with it on disk; the model keeps them as two lines.
- Audit.Auditor.AuditAgentConfig: the message for a found `agent.py` omits the file size in KB, a float computed from the filesystem.
- ReleaseTests: the HTTP requests whose outcomes become the conditions, and the printed lines, are left out. The `TOTAL` line is printed only and is not modelled.
- Integer widths: every count is unbounded. Python's integers are unbounded too.
