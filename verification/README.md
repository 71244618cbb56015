# ansible-playbill in Dafny

A model of the orchestration core of `ansible-playbill`, a small Python wrapper
around `ansible_runner` that runs a list of Ansible playbooks against
`localhost`. The repository holds two copies of the wrapper: a newer one
(`ansible_playbill/__init__.py`) and an older one (`playbill/__init__.py`).
Both are modelled.

What the core does, and what the model keeps of it:

- **Variable collation** (`_collate_playbook_confg`, `_parse_vars_file`).
  The global variables, the playbook's own variables and the contents of every
  vars file are merged into one dictionary with `dict.update`.
  - The order is global vars, then playbook vars, then the global vars files,
    then the playbook's vars files. The last writer of a key wins, so a vars
    file beats an explicit variable.
  - The file system is an oracle, `Collation.Files`. A missing path raises
    "File not found: <path>"; a malformed file raises
    "YAML error in file: <path>".
- **A single run** (`run`). It has a guard, optional collation, the log path,
  `quiet`, the request handed to `ansible_runner`, the bin-path rewrite of the
  command, the `try` block and the status check. The engine is an oracle,
  `Engine.EngineOutcome`: preparing may raise, building the `Runner` may raise,
  running may raise, or it finishes with a status and a stream of events.
- **The batch** (`run_all`). It runs the playbooks in order and stops at the
  first exception. The loop is stated once, generically, in `Batches`. Each
  copy then proves that its own step meets the loop's hypotheses.
- **Task counting** (newer copy only). The default event handler counts
  events whose `stdout` starts with `"TASK"`. The wrapper keeps every run's
  event stream in a history.

Modules, in dependency order:

- `Results`, `Errors`: the five exceptions that collation and `run` raise, one
  constructor per message.
- `Variables`: YAML values and the `dict.update` fold.
- `Config`: `PlaybookConfig` and the constructor settings.
- `Collation`, `Events`, `Engine`.
- `Batches`: the generic loop and its lemmas.
- `BatchItems`: what one playbook of a batch raises; the same in both copies.
- `AnsiblePlaybill`: the newer copy.
- `Playbill`: the older copy.
- `Copies`: where the two copies agree and where they part.
- `Scenarios`: concrete configurations.

Inputs the code takes from its environment are parameters of the model:

- the clock: a `clock: nat -> string` giving each run's timestamp text;
- the file system: `Files`;
- the engine: `engine: nat -> EngineOutcome`, one outcome per playbook of the
  batch.

Two behaviours of the code are worth stating up front:

- **Precedence.** Collation (ansible_playbill/__init__.py:115-122) applies
  every vars file after every explicit variable. So any vars file beats any
  explicit variable, global or per-playbook, and a playbook's own files beat
  the global files. See `Collation.FilesOverrideExplicitVars` and
  `Scenarios.FileBeatsExplicitGlobal`.
- **Fail-fast.** The comment at ansible_playbill/__init__.py:252-254 (and
  playbill/__init__.py:204-206) says `run_all` collates every configuration
  before any run, so that an invalid one fails fast. The loop in fact
  collates each playbook just before running it (see Findings).

## Model

| member | source | states |
|---|---|---|
| Variables.UpdateAllKeys | ansible_playbill/__init__.py:115-122 | the keys after a chain of `dict.update` calls are the starting dictionary's keys plus every source's keys |
| Variables.UpdateAllLastWins | ansible_playbill/__init__.py:115-122 | after the chain of updates, a key holds the value of the last source that holds it |
| Variables.UpdateAllKeeps | ansible_playbill/__init__.py:115-122 | a key that no later source holds keeps the value it had before the updates |
| Variables.MergeSpec | ansible_playbill/__init__.py:115-122 | updating an empty dictionary with a list of sources gives exactly the union of their keys, each with its last holder's value |
| Collation.ParseVarsFile | ansible_playbill/__init__.py:93-100 | reading a vars file succeeds exactly when the path exists and parses, and returns its contents; otherwise it raises a configuration error naming the path, and that error is "File not found" exactly when the path is missing |
| Collation.ParseAll | ansible_playbill/__init__.py:121-122 | reading a list of vars files succeeds exactly when every file parses; it yields each file's contents in list order; a failure is a configuration error |
| Collation.ParseAllReportsFirstBadFile | ansible_playbill/__init__.py:121-122 | a failed read raises the error of the first file in the list that does not parse |
| Collation.UpdateFromFiles | ansible_playbill/__init__.py:121-122 | the read-and-update loop gives the updates over all the files' contents when every file parses, and otherwise raises the first bad file's error, never a partial merge |
| Collation.Collate | ansible_playbill/__init__.py:115-127 | collation succeeds exactly when every global and playbook vars file parses; a failure is a configuration error, namely the first bad file's; the result keeps the playbook paths and lists no vars files |
| Collation.CollateMerges | ansible_playbill/__init__.py:115-122 | the collated variables are the merge of global vars, playbook vars and each file's contents (global files first), in that order |
| Collation.CollateLastWins | ansible_playbill/__init__.py:115-122 | the collated variables hold exactly the keys of all sources, each with the value of the last source in that order holding it |
| Collation.CollateKeys | ansible_playbill/__init__.py:115-122 | the collated key set is the union of the global vars', the playbook vars' and every vars file's keys |
| Collation.FilesOverrideExplicitVars | ansible_playbill/__init__.py:115-122 | a key set in a vars file (and in no later file) ends up with that file's value, whatever the global or playbook variables say |
| Collation.CollateFrom | ansible_playbill/__init__.py:252-255 | collating every playbook of the batch succeeds exactly when each playbook collates, and then gives one config per playbook |
| Collation.CollateFromValues | ansible_playbill/__init__.py:252-255 | each config from collating the whole batch is that playbook's own collated config, in playbook order |
| Collation.CollateFromReportsFirst | ansible_playbill/__init__.py:252-255 | collating the whole batch raises the error of the first playbook that does not collate |
| Events.DefaultHandler | ansible_playbill/__init__.py:138-141 | the default handler always answers true and raises the counter by one exactly when the event's `stdout` (empty when absent) starts with "TASK" |
| Events.CountTasksIsTaskPositions | ansible_playbill/__init__.py:138-141 | the task count of a stream is the number of its positions that hold a task event |
| Events.CountTasksAppend | ansible_playbill/__init__.py:138-141 | the task count of two streams back to back is the sum of their counts |
| Events.DeliverEvents | ansible_playbill/__init__.py:138-141 | calling the default handler on each event in turn raises the counter by the stream's task count and by at most one per event, and every call answers true |
| Events.TotalTasksAppend | ansible_playbill/__init__.py:138-141 | the task count of a history of streams is additive over splitting the history |
| Engine.PrefixCommand | ansible_playbill/__init__.py:225-226 | the bin-path rewrite fails ("Failed to run ansible") exactly when a bin path is set and the command is empty; otherwise it keeps the length and every argument after the first, leaves the command alone when no bin path is set (absent or empty), and makes the first element `<bin path>/<command[0]>` |
| Engine.Quiet | ansible_playbill/__init__.py:209-211 | `quiet` is true exactly when `debug` is false |
| Engine.MakeRequest | ansible_playbill/__init__.py:214-221 | the `RunnerConfig` arguments: the playbook root as private data dir, the config's playbook paths and variables, host pattern "localhost", the verbosity, `quiet == not debug`, plus the command and log path it is given |
| Engine.PrefixCommandRoundTrip | ansible_playbill/__init__.py:225-226 | stripping the bin path from the rewritten command gives back the command the engine prepared |
| Engine.Execute | ansible_playbill/__init__.py:213-239 | the `try` block plus status check succeed exactly when the engine prepared a command that could be rewritten and finished "successful"; every failure is "Failed to run ansible" or "Ansible playbook fail", the latter exactly when a built runner finished with another status; the command handed on is the bin-path rewrite of the prepared one; an event stream exists exactly when the runner was built |
| Batches.LoopSucceedsIff | ansible_playbill/__init__.py:251-256 | a loop that stops at the first raise goes through exactly when every item does, and keeps any invariant every step keeps |
| Batches.LoopFailsAt | ansible_playbill/__init__.py:251-256 | such a loop raises what its first failing item raises |
| Batches.LoopTraceAll | ansible_playbill/__init__.py:251-256 | a loop in which every item goes through has appended every item's record, in item order |
| Batches.LoopTraceAt | ansible_playbill/__init__.py:251-256 | a loop that stops at item k has appended the records of the items before k, in order, then k's own if k got that far |
| Batches.LoopCountAll | ansible_playbill/__init__.py:251-256 | a loop in which every item goes through has added every item's weight to a counter |
| Batches.LoopCountAt | ansible_playbill/__init__.py:251-256 | a loop that stops at item k has added the weights of the items before k, and k's if k counted |
| Batches.LoopAgrees | ansible_playbill/__init__.py:251-256 | two steps that agree on every item give the same loop |
| BatchItems.AllItemsSucceed | ansible_playbill/__init__.py:251-256 | every playbook of the batch goes through exactly when the guard is free, every playbook collates and every engine run succeeds |
| AnsiblePlaybill.JoinPath | ansible_playbill/__init__.py:205-207 | `os.path.join` of a directory and a relative name: the directory, then at most one "/", then the name; the part before the name ends in "/" whenever the directory is non-empty, and no separator is added to an empty directory or one already ending in "/" |
| AnsiblePlaybill.LogPath | ansible_playbill/__init__.py:204-207 | the log path starts with the prefix and ends with `ansible-runner-<now>.log`; for a prefix that does not end in "/" it is `<prefix>/ansible-runner-<now>.log` |
| AnsiblePlaybill.RunGuarded | ansible_playbill/__init__.py:200-239 | inside the guard, the guard stays held; the history gains the run's stream exactly when collation went through and the runner was built; the counter grows by that stream's task count when the handler counts tasks |
| AnsiblePlaybill.Run | ansible_playbill/__init__.py:197-239 | with the guard held, `run` raises "already running" and changes nothing; otherwise the guard is free again on every way out, and history and counter change as inside the guard |
| AnsiblePlaybill.RunOutcome | ansible_playbill/__init__.py:197-239 | `run` succeeds exactly when the guard is free, collation (if asked for) goes through and the engine succeeds; a successful run adds one stream; a collation failure raises the configuration error and leaves the state as it was; past collation the engine's result is raised; "Ansible playbook fail" only for a built runner with a non-successful status |
| AnsiblePlaybill.RunRequest | ansible_playbill/__init__.py:204-226 | the engine gets a request exactly when the guard is free, collation goes through and a rewritable command was prepared; the request carries the playbook root, the playbook paths, the (collated) variables, "localhost", the verbosity, `quiet == not debug`, the run's log path and exactly the bin-path rewrite of the prepared command |
| AnsiblePlaybill.RunItemDetermined | ansible_playbill/__init__.py:255-256 | collating a playbook and running it uncollated raises the playbook's item result and keeps the guard, from any state |
| AnsiblePlaybill.RunItemCovers | ansible_playbill/__init__.py:230-234 | every playbook that goes through reached a built runner |
| AnsiblePlaybill.RunItemRecords | ansible_playbill/__init__.py:230-234 | one playbook of the batch appends its stream to the history exactly when its runner was built |
| AnsiblePlaybill.RunItemWeighs | ansible_playbill/__init__.py:230-234 | one playbook of the batch adds its stream's task count to the counter exactly when it appended the stream |
| AnsiblePlaybill.StreamTasksTotal | ansible_playbill/__init__.py:138-141 | the counts a handler adds over the batch's streams are the task count of those streams when the handler counts tasks, and zero otherwise |
| AnsiblePlaybill.RunAllSucceedsIff | ansible_playbill/__init__.py:250-256 | `run_all` leaves the guard as it found it and succeeds exactly when every playbook goes through (so an empty batch succeeds even with the guard held) |
| AnsiblePlaybill.RunAllHistory | ansible_playbill/__init__.py:250-256 | when every item goes through, `run_all` appends every playbook's stream in playbook order |
| AnsiblePlaybill.RunAllTasks | ansible_playbill/__init__.py:250-256 | when every item goes through, the counter, reset at the start, ends as the sum of what each playbook's stream added |
| AnsiblePlaybill.RunAllRunsEverything | ansible_playbill/__init__.py:250-256 | a batch in which every playbook goes through succeeds, appends every stream in order, and leaves the counter at the task count of exactly those streams (zero for a handler that does not count) |
| AnsiblePlaybill.RunAllFailureHasFirst | ansible_playbill/__init__.py:250-256 | a failing `run_all` has a first playbook that does not go through |
| AnsiblePlaybill.RunAllHistoryAt | ansible_playbill/__init__.py:250-256 | a batch that stops at playbook k appends the streams of the playbooks before k, then k's if its runner was built |
| AnsiblePlaybill.RunAllTasksAt | ansible_playbill/__init__.py:250-256 | a batch that stops at playbook k counts the tasks of the playbooks before k, then k's if its runner was built |
| AnsiblePlaybill.RunAllResultAt | ansible_playbill/__init__.py:250-256 | a batch that stops at playbook k raises what k raised |
| AnsiblePlaybill.RunAllStopsAt | ansible_playbill/__init__.py:250-256 | a batch that stops at playbook k raises k's error; the history and the counter hold exactly the streams (and their tasks) of the playbooks before k, plus k's if its runner was built; no later playbook ran |
| AnsiblePlaybill.RunAllConfigErrorAfterRuns | ansible_playbill/__init__.py:250-256 | a configuration error in playbook k is raised only after every playbook before it ran and appended its stream |
| AnsiblePlaybill.PrecollatedFailsFast | ansible_playbill/__init__.py:252-254 | collating every playbook first, a configuration error raises the first bad playbook's error and leaves the state untouched |
| AnsiblePlaybill.CollatedStepsAgree | ansible_playbill/__init__.py:252-256 | running a pre-collated config is the same step as collating and running, playbook by playbook |
| AnsiblePlaybill.PrecollatedAgrees | ansible_playbill/__init__.py:252-256 | when every playbook collates, collating everything first gives the same outcome as `run_all` |
| Playbill.LogPath | playbill/__init__.py:161-164 | the older log path is the prefix, one "/" and `ansible-runner-<now>.log`, whatever the prefix |
| Playbill.RunGuarded | playbill/__init__.py:160-192 | inside the guard, the state is untouched and the engine's result is raised |
| Playbill.Run | playbill/__init__.py:155-192 | the older `run` leaves the state as it found it on every way out |
| Playbill.RunOutcome | playbill/__init__.py:155-192 | the older `run` succeeds exactly when the guard is free, collation goes through and the engine succeeds; a collation failure is raised whether or not the guard is held; with a good config, a held guard raises "already running"; otherwise the engine's result is raised |
| Playbill.RunRequest | playbill/__init__.py:161-183 | the older request exists under the same conditions and carries the same fields, including exactly the bin-path rewrite of the prepared command, with log path `<prefix>/ansible-runner-<now>.log` |
| Playbill.RunItemDetermined | playbill/__init__.py:207-208 | one older batch step raises the playbook's item result and leaves the state alone |
| Playbill.RunItemCovers | playbill/__init__.py:207-208 | every playbook that goes through had its request sent |
| Playbill.RunItemRecords | playbill/__init__.py:170-188 | one older batch step records its position exactly when its request reached the engine |
| Playbill.RunAllSucceedsIff | playbill/__init__.py:203-208 | the older `run_all` leaves the state as it found it and succeeds exactly when every playbook goes through |
| Playbill.RunAllReachesEverything | playbill/__init__.py:203-208 | when every playbook goes through, the engine received every playbook's request, in list order |
| Playbill.RunAllStopsAt | playbill/__init__.py:203-208 | a batch that stops at playbook k raises k's error; the engine received the requests of the playbooks before k in order, then k's if it got that far, and none after |
| Playbill.PrecollatedFailsFast | playbill/__init__.py:204-206 | collating every playbook first, a configuration error is raised before any request is sent |
| Playbill.CollatedStepsAgree | playbill/__init__.py:203-208 | running a pre-collated config is the same step as collating and running |
| Playbill.PrecollatedAgrees | playbill/__init__.py:203-208 | when every playbook collates, collating everything first gives the same outcome as the older `run_all` |
| Copies.LogPathsAgree | playbill/__init__.py:161-164 | for a non-empty prefix not ending in "/", both copies log to the same path |
| Copies.LogPathsDiffer | playbill/__init__.py:161-164 | with prefix "/tmp/" the older copy doubles the separator; with the empty prefix it logs under "/" while the newer copy logs to a relative path |
| Copies.RunsRaiseAlike | playbill/__init__.py:155-158 | the two `run`s raise the same thing except exactly when the guard is held and collation fails: then the newer one raises "already running" and the older one the configuration error |
| Copies.RunRequestsAgree | playbill/__init__.py:170-183 | both copies send a request under the same conditions, and the requests differ at most in the log path |
| Copies.RunAllsRaiseAlike | playbill/__init__.py:203-208 | for the same batch, both copies' `run_all` raise the same thing |
| Copies.PrecollatedRaiseAlike | playbill/__init__.py:204-206 | both copies' pre-collating batches raise the same thing |
| Scenarios.TestPlaybookCollates | ansible_playbill/test/test_playbill.py:13-31 | the test suite's playbook collates to `{"sixteen": ..., "thirtytwo": ...}` with no vars files |
| Scenarios.FileBeatsExplicitGlobal | ansible_playbill/__init__.py:115-122 | a vars file's `x: 1` beats an explicit global `x: 2` |
| Scenarios.PlaybookFileBeatsGlobalFile | ansible_playbill/__init__.py:118-122 | a playbook's vars file beats a global vars file, and both beat the playbook's explicit variable |
| Scenarios.OnePlaybookCountsItsTasks | ansible_playbill/test/test_playbill.py:33-39 | a one-playbook batch run with a handler that calls the default one counts exactly the task events of its stream |
| Scenarios.MissingFileStopsSecond | ansible_playbill/__init__.py:251-256 | in a batch whose second playbook names a missing vars file, the second playbook is the first that does not go through, with "File not found: missing.yml" |
| Scenarios.NewerRunsBeforeConfigError | ansible_playbill/__init__.py:250-256 | in that batch the newer `run_all` raises the missing file only after the first playbook ran and its task was counted; collating first raises the same error with the state untouched |
| Scenarios.OlderRunsBeforeConfigError | playbill/__init__.py:203-208 | in that batch the older `run_all` sent the first playbook's request before raising; collating first sends nothing |

## Findings

| source | as written | input that shows it | evidently intended | confidence | as-written member | corrected member |
|---|---|---|---|---|---|---|
| ansible_playbill/__init__.py:250-256 | `run_all` collates each playbook inside the loop, just before running it | two playbooks, the second naming `missing.yml`, with no such file and an engine that succeeds: the first playbook runs and its task is counted, then "File not found: missing.yml" is raised | the comment at lines 252-254: collate all configs before any run, and fail fast if one is invalid (`AnsiblePlaybill.RunAllPrecollated`) | not executed | Scenarios.NewerRunsBeforeConfigError | AnsiblePlaybill.PrecollatedFailsFast |
| playbill/__init__.py:203-208 | the older `run_all` has the same loop | the same batch: the first playbook's request reaches the engine before "File not found: missing.yml" is raised | the comment at lines 204-206, as above (`Playbill.RunAllPrecollated`) | not executed | Scenarios.OlderRunsBeforeConfigError | Playbill.PrecollatedFailsFast |

`AnsiblePlaybill.RunAllConfigErrorAfterRuns` states the as-written behaviour for
every batch. `PrecollatedAgrees` shows that the corrected batch changes nothing
when every playbook collates. `RunAll` itself still models the code as written.

## Left out

- The `events` property (ansible_playbill/__init__.py:144-162): a busy-wait generator over the stream history that polls the class lock. The model keeps the history it reads but not the polling.
- Concurrency: `__runner_lock` is a class attribute shared by every instance and taken from other threads. The model is one instance called sequentially, so the guard is a boolean in the state. A run that holds the guard is modelled by starting from a locked state.
- Reading and parsing YAML: files are an oracle. A file that parses to something other than a mapping is not modelled.
- Collation.ParseVarsFile: only the two errors `_parse_vars_file` wraps are modelled (missing file, invalid YAML, ansible_playbill/__init__.py:97-100). Any other error from `open` or decoding (a permission error, a directory, a file that is not UTF-8) escapes unwrapped, not as `AnsibleRunnerException`. The `Files` oracle cannot express such a file, so the promise that every collation failure is a configuration error holds only for the files it can express.
- `ansible_runner` itself, `RunnerConfig.prepare` and the `Runner`: an oracle per playbook. Setting `run_conf.env` from `os.environ` is not modelled beyond the log path the request carries.
- The `ANSIBLE_LOG_PATH` entry of `os.environ`: modelled as the request's `logPath`, not as process-wide state.
- `time.strftime`: the timestamp is opaque text supplied by a `clock` parameter.
- `print_event` (playbill/__init__.py:71-83) and the custom handler's printing: output only.
- A custom handler's own behaviour: the model assumes a custom handler calls the default handler either exactly once per event or never (`AnsiblePlaybill.CountsTasks`), as the test suite's handler does (ansible_playbill/test/test_playbill.py:35-38). A handler that calls it several times, or only for some events, is not modelled.
- The constructor's defaults (ansible_playbill/__init__.py:42-78), including the default `ansible_bin_path` of `sys.prefix/bin`: every setting is an explicit field of `Config.Settings`.
- The `tasks_processed` property (ansible_playbill/__init__.py:164-174) is a plain read of the state's `tasksProcessed` field.
- The verbosity of the playbooks a batch runs: `run_all` always passes 0, and the model does the same.
- Floats are kept as their literal text; dictionary key order is not modelled.
- `setup.py` and the tests themselves: packaging and integration tests that need a real Ansible installation. The expected count of 29 tasks depends on the playbook on disk.
