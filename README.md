# Orchestrator agent/job coordination, modelled in Dafny

`orchestrator.py` is a FastAPI service that hands deployment jobs to remote
agents. An operator holding the admin secret (`ADMIN_API_TOKEN`) creates jobs
for registered agents and uploads environment bundles. Each agent
authenticates with the bearer token it got at registration. It polls for its
pending jobs, reports their outcome, and downloads the env bundles that its
pending jobs reference.

This project models that coordination core:

- **The state.** The agent table (`agents.json`), the job table
  (`jobs.json`) and the bundle store (`envs/<token>.json`) are the fields of
  the class `Coordination.Orchestrator`. A table is a Python dict, so it is
  kept as a sequence of keys in insertion order plus a `map`.
  `Records.AgentTable` and `Records.JobTable` are the invariants that
  `Valid()` keeps:
  - keys are listed once;
  - each row is stored under its own id;
  - agent ids and tokens are non-empty, and tokens are unique;
  - every job belongs to a registered agent.
- **The handlers.** `register`, `/agents`, `create_job`, `/jobs`,
  `poll_jobs`, `report`, `upload_env` and `download_env` are methods on
  those fields; `register`, `create_job`, `poll_jobs`, `report` and
  `upload_env` change them, the other three only read them. Each is proved against its error cases and its new
  state.
- **Authentication.** `require_admin` is a function. The token lookup loop
  that three handlers repeat is one method, `Auth.FindAgentByToken`. It is
  proved equal to the function `Auth.Authenticate`, and lemmas about that
  function show that the first match wins and that an agent authenticates
  exactly when it presents its own token.
- **Derived state.** The poll result and the download authorisation are
  specification functions (`Ledger.PendingFor`, `Ledger.MayDownload`,
  `Ledger.Download`). The handlers' loops are proved equal to them. Lemmas
  say how `create_job`, `report` and `upload_env` change what later polls
  and downloads see.
- **Pure helpers.** `sanitize_app_name` and `dict_to_env_bytes` are
  functions and a loop method. The escaping is proved to be undone by a
  `.env` value reader, so a written line reads back as its key and value.
- **Scenarios.** `Scenarios` holds end-to-end runs on a fresh orchestrator:
  register → create → poll, register → create → report → poll, and
  download before and after upload.

Clock readings and uuid values are parameters of the methods. Each
`time.time()` call and each `uuid4()` call is a separate parameter. Freshness
of ids and tokens is a precondition.

Where the code and its own description differ, the model follows the code:

- `report` stores whatever status it is sent. A job reported "done" can be
  set back to "pending", which puts it back into its owner's polls
  (`Ledger.PendingReportRequeues`). The status is not terminal.
- Token uniqueness is not checked anywhere in the code. It holds only
  because tokens are fresh uuid4 values, so `Register` requires a token
  that no agent holds.
- The handlers test `if not agent_id`, so an agent stored under an empty
  id would be refused as "invalid agent token". `Auth.Authenticate` models
  that test, although no well-formed table has such an agent.

## Model

| member | source | states |
|---|---|---|
| Auth.RequireAdmin | orchestrator.py:70-73 | admitted exactly when no non-empty admin secret is configured or the header equals it; otherwise 403 "invalid admin token" |
| Auth.FirstMatchIndex | orchestrator.py:269-272 | the index is the first position, in table order, whose agent carries the token, or the table length when none does |
| Auth.Authenticate | orchestrator.py:265-274 | a missing or empty header gives 403 "missing agent token"; no matching agent gives 403 "invalid agent token"; success names a non-empty listed agent that carries the token |
| Auth.AuthenticateYieldsFirstMatch | orchestrator.py:269-272 | the authenticated agent is the earliest one in table order that carries the token |
| Auth.AuthenticateIff | orchestrator.py:269-274 | with unique tokens, a request authenticates as an agent exactly when it presents that agent's token |
| Auth.EveryAgentAuthenticates | orchestrator.py:204-206 | in a well-formed table every registered agent's own token authenticates it |
| Auth.FindAgentByToken | orchestrator.py:292-301 | the scan-and-break loop computes exactly Authenticate |
| Ledger.PendingFor | orchestrator.py:279-283 | the poll result holds only pending jobs of the caller that are in the table, and every such job listed in the order is in it; it is no longer than the table |
| Ledger.PendingForConcat | orchestrator.py:280 | the filter keeps table order: polling a concatenated key run returns the two results in turn |
| Ledger.PendingForSnoc | orchestrator.py:280-282 | one more key appends that key's job exactly when it is pending for the caller |
| Ledger.PendingForUnlisted | orchestrator.py:280 | a row under a key the order does not list does not change any poll |
| Ledger.CreatedJobPolled | orchestrator.py:244-253 | after create_job the owner's poll is its old poll followed by the new pending job, and other agents' polls are unchanged |
| Ledger.WithoutJob | orchestrator.py:308 | a record is kept exactly when it was present and belongs to another job |
| Ledger.PollAfterReport | orchestrator.py:308-310 | a report with a status other than "pending" withdraws exactly that job from every poll and keeps the rest in order |
| Ledger.WithoutJobConcat | orchestrator.py:308 | withdrawing a job distributes over concatenation |
| Ledger.PendingReportRequeues | orchestrator.py:308 | a report that sets "pending" puts the job back into its owner's poll |
| Ledger.CollectPending | orchestrator.py:279-282 | the accumulator loop returns exactly PendingFor |
| Ledger.HasQualifyingJob | orchestrator.py:363-367 | the loop answers true exactly when some pending job of the caller references the env token |
| Ledger.Download | orchestrator.py:350-376 | success exactly when the caller authenticates, may download and the bundle exists, with the stored document; 403 before 404; 404 exactly when authorised and the bundle is missing |
| Ledger.DownloadRevokedByReport | orchestrator.py:308-310 | once a job leaves "pending" it authorises no download; access remains exactly when another qualifying job exists |
| Ledger.DownloadAfterUpload | orchestrator.py:334-342 | for an authorised caller the download returns exactly the uploaded document, and answers 404 before the upload |
| Records.OrderedKeysAppend | orchestrator.py:204 | inserting a fresh key keeps the key order duplicate-free and in step with the map |
| Records.AgentTableAdd | orchestrator.py:204-214 | adding an agent with a fresh id and a fresh token keeps both tables well formed |
| Records.AgentTableTouch | orchestrator.py:276 | rewriting an agent's row with the same id and token keeps both tables well formed |
| Records.JobTableAdd | orchestrator.py:244-254 | adding a job for a registered agent under a fresh id keeps the job table well formed |
| Records.JobTableUpdate | orchestrator.py:308-311 | rewriting a job's row with the same id and owner keeps the job table well formed |
| Coordination.ReportOutcome | orchestrator.py:300-307 | an authentication error is passed on; an unknown job gives 404 "job not found"; success exactly when the job exists and belongs to the caller |
| Coordination.ReportByOtherAgentRefused | orchestrator.py:305-307 | an agent presenting its own token is refused with 403 "job does not belong to this agent" on another agent's job |
| Coordination.Orchestrator.constructor | orchestrator.py:171-189 | first start on an empty storage root: both tables empty, no bundles, invariant holds |
| Coordination.Orchestrator.Register | orchestrator.py:199-215 | appends exactly one agent row under the fresh id with the given fields and leaves earlier rows, jobs and bundles alone; the new token and every registered token authenticate their agents |
| Coordination.Orchestrator.ListAgents | orchestrator.py:218-221 | admin-gated; returns the agent table unchanged |
| Coordination.Orchestrator.CreateJob | orchestrator.py:224-255 | 403 without admin rights, then 404 "agent not found" for a missing or unknown agent id; success exactly otherwise, appending one pending job with no output under the fresh id |
| Coordination.Orchestrator.ListJobs | orchestrator.py:258-261 | admin-gated; returns the job table unchanged |
| Coordination.Orchestrator.PollJobs | orchestrator.py:264-283 | authentication errors change nothing; otherwise only the caller's last_seen becomes `now` and the result is PendingFor the caller |
| Coordination.Orchestrator.Report | orchestrator.py:291-312 | the answer is ReportOutcome; on success only that job's status, output and updated time change, and on error nothing changes |
| Coordination.Orchestrator.UploadEnv | orchestrator.py:317-342 | 403 without admin rights, 400 for an invalid file or no document; success exactly otherwise, storing the document under "env_" + hex and nothing else |
| Coordination.Orchestrator.DownloadEnv | orchestrator.py:345-376 | the handler computes exactly Download on the current state |
| AppName.Basename | orchestrator.py:81 | the basename holds no '/', is a suffix of the path, and is preceded by '/' unless it is the whole path |
| AppName.SanitizeAppName | orchestrator.py:75-86 | a returned name is non-empty and holds no '/', no '\\' and no ".."; an error is 400 with the repo URL in its detail |
| AppName.StripGitSplit | orchestrator.py:82-83 | exactly one trailing ".git" is removed, and only when present |
| AppName.SanitizeStripsGit | orchestrator.py:81-83 | the name is the path's basename, less ".git" when it ends with it |
| AppName.SanitizeOkIff | orchestrator.py:84 | sanitising succeeds exactly when the stripped basename is a safe name; the '/' test never decides |
| AppName.SanitizedNameEndsPath | orchestrator.py:76-86 | the repository path is a prefix ending in '/' (or empty), then the name, then possibly ".git" |
| AppName.PathEndsWithStrippedBasename | orchestrator.py:81-83 | the same fact for any path and its stripped basename |
| EnvFile.ReplaceChar | orchestrator.py:94 | replacing a character by text without it removes it; the result holds only characters of the input or the replacement |
| EnvFile.ReplaceCharConcat | orchestrator.py:94 | replacing distributes over concatenation |
| EnvFile.EscapeIsCharwise | orchestrator.py:94 | the three replace passes escape each character on its own |
| EnvFile.EscapeCharByPasses | orchestrator.py:94 | the three passes turn one character into its escape |
| EnvFile.UnescapeEscape | orchestrator.py:94 | a .env value reader gives back exactly the escaped value |
| EnvFile.UnescapeEscapeChars | orchestrator.py:94 | the reader undoes character-wise escaping |
| EnvFile.UnescapeEscapedChar | orchestrator.py:94 | the reader undoes one escaped character in front of a readable rest |
| EnvFile.EnvLines | orchestrator.py:89-95 | at most one line per entry; each line is the line of a source entry with a non-blank key |
| EnvFile.EnvLinesAppend | orchestrator.py:90-95 | lines are produced entry by entry in iteration order, blank keys skipped |
| EnvFile.JoinThenNewline | orchestrator.py:96 | joining with newlines and adding one newline terminates every line; no lines give a single newline |
| EnvFile.DictToEnvBytes | orchestrator.py:88-96 | the loop produces the joined lines plus a newline; the text always ends in a newline and terminates each line |
| EnvFile.FirstEquals | orchestrator.py:95 | the position of the first '=' in a line, or its length |
| EnvFile.FirstEqualsAfterKey | orchestrator.py:95 | in a written line whose key has no '=', the first '=' follows the key |
| EnvFile.EnvLineRoundTrip | orchestrator.py:95 | a written line reads back as its key and value text when the key holds no '=' |
| EnvFile.IsSpace | orchestrator.py:91 | definition: the characters Python's `str.strip()` removes |
| EnvFile.Blank | orchestrator.py:91 | definition: `k.strip() == ""`, the key is empty or all whitespace |
| EnvFile.Escape | orchestrator.py:94 | the escaped value holds no raw newline and is no shorter than the value; UnescapeEscape reads it back |
| EnvFile.EscapeChar | orchestrator.py:94 | reference definition: the escape of one character, against which EscapeIsCharwise measures the three passes |
| EnvFile.EscapeChars | orchestrator.py:94 | reference definition: character-by-character escaping |
| EnvFile.EnvLine | orchestrator.py:93-95 | the line starts with the key, then '=' and '"', ends with '"', and holds no newline unless the key does |
| EnvFile.Join | orchestrator.py:96 | `"\n".join`: no lines give ""; otherwise the text starts with the first line and ends with the last |
| EnvFile.Terminated | orchestrator.py:96 | reference definition: every line followed by its own newline, compared with Join by JoinThenNewline |
| EnvFile.Unescape | orchestrator.py:94 | reference definition: a .env double-quoted value reader, never longer than its input; the round-trip lemmas are measured against it |
| EnvFile.ParseLine | orchestrator.py:95 | reference definition: a .env line reader splitting at the first '='; a key it returns holds no '=' |
| Http.OrEmpty | orchestrator.py:208-209 | definition: None read as "" (also the `"" if v is None` of line 93) |
| AppName.RepoPath | orchestrator.py:76-80 | the path is repo_url or the non-empty parsed path, and is non-empty whenever repo_url is |
| AppName.EndsWithGit | orchestrator.py:82 | definition: `base.endswith(".git")` |
| AppName.StripGit | orchestrator.py:82-83 | the result is a prefix of the basename, four characters shorter exactly when it ends with ".git" |
| AppName.HasDotDot | orchestrator.py:84 | definition: `".." in s` |
| AppName.SafeName | orchestrator.py:84 | definition: non-empty, no backslash, no ".." |
| Auth.HasToken | orchestrator.py:270 | definition: the agent stored under the id carries the token |
| Ledger.IsPendingFor | orchestrator.py:281 | definition: the job belongs to the caller and its status is "pending" |
| Ledger.Qualifies | orchestrator.py:365 | definition: a pending job of the caller that references the env token |
| Ledger.MayDownload | orchestrator.py:363-369 | definition: some job in the table qualifies; HasQualifyingJob is proved to decide it |
| Records.OrderedKeys | orchestrator.py:204 | definition: a dict's keys in insertion order, each once |
| Records.AgentTable | orchestrator.py:204-213 | definition: rows under their own non-empty ids, non-empty and unique tokens |
| Records.JobTable | orchestrator.py:244-253 | definition: rows under their own ids, each owned by a registered agent |
| Coordination.UploadedDocument | orchestrator.py:323-332 | a document exactly when a valid JSON file is given, or no file and a JSON body (the file wins); otherwise one of the two 400 details |
| Coordination.Reported | orchestrator.py:308-310 | the job keeps its id, owner, args, is_spa, env_token and created time; status, output and updated become the reported ones |
| Scenarios.RegisterAndCreate | orchestrator.py:199-255 | on a fresh orchestrator, one registration and one create_job leave exactly one agent that authenticates and one pending job |
| Scenarios.CreatedJobIsPolled | orchestrator.py:264-283 | that agent's poll returns exactly the created job |
| Scenarios.ReportedJobIsNotPolledAgain | orchestrator.py:291-312 | after reporting "done" the poll is empty and the job list shows the job done with its output |
| Scenarios.DownloadWaitsForUpload | orchestrator.py:317-376 | the owner's download answers 404 before the upload and returns the document after it |

## Left out

- The legacy `/deploy` endpoint, `stream_script`, `atomic_write` and the `/` endpoint: these run subprocesses and write files, and are outside the coordination core.
- File I/O: `read_json`/`write_json`, `chmod`, and atomic replace. Each handler is modelled as reading the tables, changing them and writing them back in one step.
- Concurrency: the file lock and interleaved requests are not modelled. Each handler runs atomically.
- JSON: parsing and encoding are not modelled. A bundle is kept as its document text (`Payload`). `upload_env` gets the outcome of parsing an uploaded file as `UploadedFile`.
- Request validation: FastAPI/pydantic validation is not modelled. Payload fields of an unexpected JSON type are not modelled; `agent_id` and `env_token` are `Option<string>`, `args` is a `seq<string>`, `is_spa` is a `bool`, and register's `meta` is a `map<string, string>`, so meta values that are not strings (numbers, lists, objects, allowed by `Dict[str, Any]` at orchestrator.py:196) are not modelled.
- `urlparse` is not modelled. `AppName.SanitizeAppName` receives its path component as `parsedPath`, None when urlparse raises.
- EnvFile.DictToEnvBytes: returns text, not UTF-8 bytes. Keys are strings, because JSON object keys are, so the `isinstance(k, str)` test always holds. Values are `None` or strings; `str(v)` of numbers, booleans, lists and objects is not modelled.
- Coordination.Orchestrator.Register: the two clock readings `t1`/`t2` are separate parameters. "created" equals "last_seen" only when both readings fall in the same second.
- Coordination.Orchestrator.CreateJob: the same holds for "created" and "updated" (`t1`/`t2`).
- Uniqueness of uuid4 values is a precondition. `Register` requires a fresh id and a fresh token, `CreateJob` a fresh job id. `UploadEnv` overwrites a bundle stored under the same token.
- Coordination.Orchestrator.constructor: models only the first start on an empty storage root, where lines 174-189 create empty tables. A restart is modelled as the same object carrying on. Tables persisted by an earlier run, or edited by hand, are assumed to be ones the handlers wrote, so `Valid()` holds; the code itself checks none of it (unique tokens, non-empty ids, jobs owned by registered agents).
- Ledger.Download: the bundle store holds only uploaded documents, keyed by token. The code reads the file `envs/<env_token>.json` (orchestrator.py:371-375), and `create_job` accepts any env_token unchecked (orchestrator.py:241). A token with '/' in it, such as "../agents" or an absolute path, resolves outside `envs/`. For such a token the code can serve another file (agents.json, with every agent's token) to the job's agent, while the model answers 404 "env token not found". Tokens that resolve outside `envs/` are not modelled.
- Coordination.Orchestrator.DownloadEnv: inherits the same limit from Ledger.Download. Path resolution is not modelled, so a token resolving outside `envs/` gets 404 in the model.
- Configuration constants other than `ADMIN_API_TOKEN` (storage paths, script paths, timeouts) are not modelled.
- Coordination.Orchestrator.ListAgents and Coordination.Orchestrator.ListJobs: return the table as a `map`, without its key order.
- Ledger.DownloadAfterUpload: holds by the definition of `Download` alone. It is kept because it states the upload/download round trip.
