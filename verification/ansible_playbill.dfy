/** The newer copy of the wrapper: the single-run guard, the event history,
    the task counter, `run` and `run_all`. The guard, the history and the
    counter are the orchestrator's mutable state; everything else is a fixed
    `Settings` value, and the clock, the file system and the engine are
    parameters. */
module AnsiblePlaybill {
  import opened Results
  import opened Errors
  import opened Variables
  import opened Config
  import opened Collation
  import opened Events
  import opened Engine
  import opened Batches
  import opened BatchItems

  /** The `event_handler` the engine calls for every event: the default one,
      or the caller's own, which may itself call the default one. */
  datatype Handler = DefaultHandler | CustomHandler(callsDefault: bool)

  /** The handler feeds the task counter. */
  predicate CountsTasks(h: Handler) {
    h.DefaultHandler? || h.callsDefault
  }

  /** The orchestrator's mutable state: the guard (`Idle` when `locked` is
      false), `tasks_processed` and the list of per-run event streams. */
  datatype State = State(locked: bool, tasksProcessed: nat, history: seq<seq<Event>>)

  /** One call of `run`: the state afterwards, whether it raised, and the
      request the engine received, if one was built. */
  datatype Step = Step(state: State, result: Result<(), Error>, request: Option<Request>)

  /** `os.path.join(dir, name)` on POSIX for a `name` that does not start
      with "/": a separator is added unless `dir` is empty or already ends in one. */
  function JoinPath(dir: string, name: string): (p: string)
    ensures dir <= p && |p| >= |name| && p[|p| - |name|..] == name
    ensures |dir| + |name| <= |p| <= |dir| + |name| + 1
    ensures dir != [] ==> p[|p| - |name| - 1] == '/'
    ensures dir == [] || dir[|dir| - 1] == '/' ==> |p| == |dir| + |name|
  {
    if dir == [] || dir[|dir| - 1] == '/' then dir + name else dir + "/" + name
  }

  /** The `ANSIBLE_LOG_PATH` a run sets. The log file sits directly under the
      prefix, and the path ends in the file name; with a prefix that does not
      already end in "/" this is the older copy's `<prefix>/ansible-runner-<now>.log`. */
  function LogPath(logPrefix: string, now: string): (p: string)
    ensures logPrefix <= p
    ensures |p| >= |LogFileName(now)| && p[|p| - |LogFileName(now)|..] == LogFileName(now)
    ensures logPrefix != [] && logPrefix[|logPrefix| - 1] != '/' ==> p == logPrefix + "/" + LogFileName(now)
  {
    JoinPath(logPrefix, LogFileName(now))
  }

  /** Records a built runner's events: the stream joins the history, and the
      handler has counted its task events. */
  function Record(h: Handler, st: State, evs: seq<Event>): State {
    st.(history := st.history + [evs],
        tasksProcessed := st.tasksProcessed + if CountsTasks(h) then CountTasks(evs) else 0)
  }

  /** The body of `with self.__runner_lock:` -- runs with the guard held. */
  function RunGuarded(s: Settings, h: Handler, st: State, pb: PlaybookConfig, verbosity: int, collate: bool,
                      fs: Files, now: string, o: EngineOutcome): (r: Step)
    requires st.locked
    ensures r.state.locked
    ensures var built := Collates(s, pb, collate, fs) && RunnerBuilt(s.binPath, o);
      && r.state.history == st.history + (if built then [EngineEvents(s.binPath, o)] else [])
      && r.state.tasksProcessed
         == st.tasksProcessed + if built && CountsTasks(h) then CountTasks(EngineEvents(s.binPath, o)) else 0
  {
    var collated := if collate then Collate(s, pb, fs) else Success(pb);
    match collated
    case Failure(e) =>
      Step(st, Failure(e), None)
    case Success(cfg) =>
      var attempt := Execute(s.binPath, o);
      var request :=
        if attempt.command.Some?
        then Some(MakeRequest(s, cfg, verbosity, attempt.command.value, LogPath(s.logPrefix, now)))
        else None;
      match attempt.emitted
      case None =>
        Step(st, attempt.result, request)
      case Some(evs) =>
        Step(Record(h, st, evs), attempt.result, request)
  }

  /** `run`: fail fast when the guard is held, otherwise take it, run the body
      and release it on every way out. */
  function Run(s: Settings, h: Handler, st: State, pb: PlaybookConfig, verbosity: int, collate: bool,
               fs: Files, now: string, o: EngineOutcome): (r: Step)
    ensures st.locked ==> r == Step(st, Failure(AlreadyRunning), None)
    ensures !st.locked ==> !r.state.locked
    ensures var built := !st.locked && Collates(s, pb, collate, fs) && RunnerBuilt(s.binPath, o);
      && r.state.history == st.history + (if built then [EngineEvents(s.binPath, o)] else [])
      && r.state.tasksProcessed
         == st.tasksProcessed + if built && CountsTasks(h) then CountTasks(EngineEvents(s.binPath, o)) else 0
  {
    if st.locked then
      Step(st, Failure(AlreadyRunning), None)
    else
      var held := RunGuarded(s, h, st.(locked := true), pb, verbosity, collate, fs, now, o);
      held.(state := held.state.(locked := false))
  }

  /** How `run` ends: it succeeds exactly when the guard was free, collation
      (if asked for) went through and the engine finished "successful"; every
      failure raises the first error met, in the code's order. */
  lemma RunOutcome(s: Settings, h: Handler, st: State, pb: PlaybookConfig, verbosity: int, collate: bool,
                   fs: Files, now: string, o: EngineOutcome)
    ensures var r := Run(s, h, st, pb, verbosity, collate, fs, now, o);
      && (r.result.Success? <==> !st.locked && Collates(s, pb, collate, fs) && EngineSucceeds(s.binPath, o))
      && (r.result.Success? ==> |r.state.history| == |st.history| + 1)
      && ((!st.locked && !Collates(s, pb, collate, fs))
          ==> r.result == Failure(Collate(s, pb, fs).error) && r.state == st)
      && ((!st.locked && Collates(s, pb, collate, fs))
          ==> r.result == Execute(s.binPath, o).result)
      && ((!st.locked && Collates(s, pb, collate, fs) && r.result.Failure?)
          ==> r.result.error == RunFailed || r.result.error == PlaybookFailed)
      && (r.result == Failure(PlaybookFailed)
          ==> RunnerBuilt(s.binPath, o) && o.execution.Finished? && o.execution.status != SuccessfulStatus)
  {
  }

  /** What the engine is handed: the collated variables, the fixed host
      pattern, `quiet == not debug`, the run's log path and the command with
      the bin path prefixed. A request exists exactly when the guard was free,
      collation went through and the engine prepared a command that could be
      rewritten. */
  lemma RunRequest(s: Settings, h: Handler, st: State, pb: PlaybookConfig, verbosity: int, collate: bool,
                   fs: Files, now: string, o: EngineOutcome)
    ensures var r := Run(s, h, st, pb, verbosity, collate, fs, now, o);
      && (r.request.Some? <==>
            !st.locked && Collates(s, pb, collate, fs) && o.Prepared? && PrefixCommand(s.binPath, o.command).Success?)
      && (r.request.Some? ==>
            && r.request.value.privateDataDir == s.playbookRoot
            && r.request.value.playbook == pb.playbookPaths
            && r.request.value.extraVars == (if collate then Collate(s, pb, fs).value.extraVars else pb.extraVars)
            && r.request.value.hostPattern == "localhost"
            && r.request.value.verbosity == verbosity
            && r.request.value.quiet == !s.debug
            && r.request.value.logPath == LogPath(s.logPrefix, now)
            && r.request.value.command == PrefixCommand(s.binPath, o.command).value
            && StripBinPath(s.binPath, r.request.value.command) == o.command)
  {
  }

  /** The step `run_all` takes for playbook `j`: collate it, then `run` the
      result without collating again. */
  function RunItem(s: Settings, h: Handler, fs: Files, clock: nat -> string, engine: nat -> EngineOutcome)
    : (State, nat) -> Outcome<State>
  {
    (st: State, j: nat) =>
      if j < |s.playbooks| then
        match Collate(s, s.playbooks[j], fs)
        case Failure(e) => Outcome(st, Failure(e))
        case Success(cfg) =>
          var step := Run(s, h, st, cfg, 0, false, fs, clock(j), engine(j));
          Outcome(step.state, step.result)
      else Outcome(st, Success(()))
  }

  /** `run_all`: reset the task counter once for the whole batch, then run
      every playbook in list order, stopping at the first raise. */
  function RunAll(s: Settings, h: Handler, st: State, fs: Files,
                  clock: nat -> string, engine: nat -> EngineOutcome): Outcome<State>
  {
    Loop(RunItem(s, h, fs, clock, engine), st.(tasksProcessed := 0), 0, |s.playbooks|)
  }

  /** Playbook `j` reached a built runner, so its stream joined the history. */
  function ItemAdds(s: Settings, fs: Files, locked: bool, engine: nat -> EngineOutcome): nat -> bool {
    (j: nat) => j < |s.playbooks| && Collate(s, s.playbooks[j], fs).Success? && !locked && RunnerBuilt(s.binPath, engine(j))
  }

  function LockedIs(locked: bool): State -> bool {
    (st: State) => st.locked == locked
  }

  function History(): State -> seq<seq<Event>> {
    (st: State) => st.history
  }

  function TasksProcessed(): State -> nat {
    (st: State) => st.tasksProcessed
  }

  /** The event stream playbook `j`'s runner emits. */
  function Streams(binPath: Option<string>, engine: nat -> EngineOutcome): nat -> seq<Event> {
    (j: nat) => EngineEvents(binPath, engine(j))
  }

  /** What playbook `j`'s stream adds to the counter under handler `h`. */
  function StreamTasks(h: Handler, binPath: Option<string>, engine: nat -> EngineOutcome): nat -> nat {
    (j: nat) => if CountsTasks(h) then CountTasks(EngineEvents(binPath, engine(j))) else 0
  }

  /** One playbook of the batch, from any state with the guard as `locked`,
      raises `ItemResult` and keeps the guard. */
  lemma RunItemDetermined(s: Settings, h: Handler, fs: Files, clock: nat -> string, engine: nat -> EngineOutcome,
                          locked: bool)
    ensures Determined(RunItem(s, h, fs, clock, engine), LockedIs(locked), ItemResults(s, fs, locked, engine),
                       0, |s.playbooks|)
  {
    var step := RunItem(s, h, fs, clock, engine);
    forall st: State, j: nat | 0 <= j < |s.playbooks| && LockedIs(locked)(st)
      ensures LockedIs(locked)(step(st, j).state) && step(st, j).result == ItemResults(s, fs, locked, engine)(j)
    {
      var c := Collate(s, s.playbooks[j], fs);
      if c.Success? {
        RunOutcome(s, h, st, c.value, 0, false, fs, clock(j), engine(j));
      }
    }
  }

  /** Every playbook that goes through reached a built runner. */
  lemma RunItemCovers(s: Settings, fs: Files, engine: nat -> EngineOutcome, locked: bool)
    ensures Covers(ItemResults(s, fs, locked, engine), ItemAdds(s, fs, locked, engine), 0, |s.playbooks|)
  {
    forall j | 0 <= j < |s.playbooks|
      ensures ItemResults(s, fs, locked, engine)(j).Success? ==> ItemAdds(s, fs, locked, engine)(j)
    {
    }
  }

  /** One playbook of the batch appends its stream exactly when it reached a
      built runner. */
  lemma RunItemRecords(s: Settings, h: Handler, fs: Files, clock: nat -> string, engine: nat -> EngineOutcome,
                       locked: bool)
    ensures Records(RunItem(s, h, fs, clock, engine), LockedIs(locked),
                    ItemAdds(s, fs, locked, engine), History(), Streams(s.binPath, engine), 0, |s.playbooks|)
  {
    var step := RunItem(s, h, fs, clock, engine);
    forall st: State, j: nat | 0 <= j < |s.playbooks| && LockedIs(locked)(st)
      ensures History()(step(st, j).state)
           == History()(st) + if ItemAdds(s, fs, locked, engine)(j) then [Streams(s.binPath, engine)(j)] else []
    {
      var c := Collate(s, s.playbooks[j], fs);
      if c.Success? {
        var r := Run(s, h, st, c.value, 0, false, fs, clock(j), engine(j));
        assert step(st, j).state == r.state;
      }
    }
  }

  /** One playbook of the batch adds its stream's tasks to the counter exactly
      when it appended that stream. */
  lemma RunItemWeighs(s: Settings, h: Handler, fs: Files, clock: nat -> string, engine: nat -> EngineOutcome,
                      locked: bool)
    ensures Weighs(RunItem(s, h, fs, clock, engine), LockedIs(locked), ItemAdds(s, fs, locked, engine),
                   TasksProcessed(), StreamTasks(h, s.binPath, engine), 0, |s.playbooks|)
  {
    var step := RunItem(s, h, fs, clock, engine);
    forall st: State, j: nat | 0 <= j < |s.playbooks| && LockedIs(locked)(st)
      ensures TasksProcessed()(step(st, j).state)
           == TasksProcessed()(st) + if ItemAdds(s, fs, locked, engine)(j) then StreamTasks(h, s.binPath, engine)(j) else 0
    {
      var c := Collate(s, s.playbooks[j], fs);
      if c.Success? {
        var r := Run(s, h, st, c.value, 0, false, fs, clock(j), engine(j));
        assert step(st, j).state == r.state;
      }
    }
  }

  /** The counter after a batch is what the handler counted over the streams
      the batch appended. */
  lemma {:induction false} StreamTasksTotal(h: Handler, binPath: Option<string>, engine: nat -> EngineOutcome,
                                            i: nat, m: nat)
    ensures Sum(StreamTasks(h, binPath, engine), i, m)
         == if CountsTasks(h) then TotalTasks(Items(Streams(binPath, engine), i, m)) else 0
    decreases m
  {
    if m > 0 {
      var w := StreamTasks(h, binPath, engine);
      var e := EngineEvents(binPath, engine(i));
      var rest := Items(Streams(binPath, engine), i + 1, m - 1);
      StreamTasksTotal(h, binPath, engine, i + 1, m - 1);
      assert Sum(w, i, m) == w(i) + Sum(w, i + 1, m - 1);
      assert w(i) == if CountsTasks(h) then CountTasks(e) else 0;
      assert Items(Streams(binPath, engine), i, m) == [e] + rest;
      TotalTasksAppend([e], rest);
      TotalTasksSingle(e);
    }
  }

  /** `run_all` leaves the guard as it found it, and succeeds exactly when
      every playbook goes through; with no playbooks it succeeds even while
      the guard is held, since `run` is never called. */
  lemma RunAllSucceedsIff(s: Settings, h: Handler, st: State, fs: Files,
                          clock: nat -> string, engine: nat -> EngineOutcome)
    ensures RunAll(s, h, st, fs, clock, engine).state.locked == st.locked
    ensures RunAll(s, h, st, fs, clock, engine).result.Success? <==> AllGoThrough(s, fs, st.locked, engine)
  {
    var res := ItemResults(s, fs, st.locked, engine);
    RunItemDetermined(s, h, fs, clock, engine, st.locked);
    var r := Loop(RunItem(s, h, fs, clock, engine), st.(tasksProcessed := 0), 0, |s.playbooks|);
    assert RunAll(s, h, st, fs, clock, engine) == r;
    LoopSucceedsIff(RunItem(s, h, fs, clock, engine), LockedIs(st.locked), res,
                    st.(tasksProcessed := 0), 0, |s.playbooks|);
    assert LockedIs(st.locked)(r.state);
    AllItemsSucceed(s, fs, st.locked, engine);
  }

  /** The history after a batch of any steps that keep the guard, raise `res`
      and append `item(j)` for the items in `adds`, when every item goes
      through. This and the three lemmas like it instantiate the generic
      `Batches` lemmas over an arbitrary step, so that the `run_all` lemmas
      below never unfold the concrete step and the loop lemma together,
      which keeps their proofs cheap. */
  lemma LoopHistory(step: (State, nat) -> Outcome<State>, res: nat -> Result<(), Error>, adds: nat -> bool,
                    item: nat -> seq<Event>, st0: State, n: nat)
    requires Determined(step, LockedIs(st0.locked), res, 0, n)
    requires Covers(res, adds, 0, n)
    requires Records(step, LockedIs(st0.locked), adds, History(), item, 0, n)
    requires AllSucceed(res, 0, n)
    ensures Loop(step, st0, 0, n).state.history == st0.history + Items(item, 0, n)
  {
    LoopTraceAll(step, LockedIs(st0.locked), res, adds, History(), item, st0, 0, n);
  }

  /** The counter after such a batch, counting `w(j)` for the items in `adds`
      (stated over an arbitrary step, as `LoopHistory` is). */
  lemma LoopTasks(step: (State, nat) -> Outcome<State>, res: nat -> Result<(), Error>, adds: nat -> bool,
                  w: nat -> nat, st0: State, n: nat)
    requires Determined(step, LockedIs(st0.locked), res, 0, n)
    requires Covers(res, adds, 0, n)
    requires Weighs(step, LockedIs(st0.locked), adds, TasksProcessed(), w, 0, n)
    requires AllSucceed(res, 0, n)
    ensures Loop(step, st0, 0, n).state.tasksProcessed == st0.tasksProcessed + Sum(w, 0, n)
  {
    LoopCountAll(step, LockedIs(st0.locked), res, adds, TasksProcessed(), w, st0, 0, n);
  }

  /** The streams a batch in which every item goes through appends. */
  lemma RunAllHistory(s: Settings, h: Handler, st: State, fs: Files,
                      clock: nat -> string, engine: nat -> EngineOutcome)
    requires AllSucceed(ItemResults(s, fs, st.locked, engine), 0, |s.playbooks|)
    ensures RunAll(s, h, st, fs, clock, engine).state.history
         == st.history + Items(Streams(s.binPath, engine), 0, |s.playbooks|)
  {
    RunItemDetermined(s, h, fs, clock, engine, st.locked);
    RunItemCovers(s, fs, engine, st.locked);
    RunItemRecords(s, h, fs, clock, engine, st.locked);
    LoopHistory(RunItem(s, h, fs, clock, engine), ItemResults(s, fs, st.locked, engine), ItemAdds(s, fs, st.locked, engine),
                Streams(s.binPath, engine), st.(tasksProcessed := 0), |s.playbooks|);
  }

  /** The counter after a batch in which every item goes through. */
  lemma RunAllTasks(s: Settings, h: Handler, st: State, fs: Files,
                    clock: nat -> string, engine: nat -> EngineOutcome)
    requires AllSucceed(ItemResults(s, fs, st.locked, engine), 0, |s.playbooks|)
    ensures RunAll(s, h, st, fs, clock, engine).state.tasksProcessed
         == Sum(StreamTasks(h, s.binPath, engine), 0, |s.playbooks|)
  {
    RunItemDetermined(s, h, fs, clock, engine, st.locked);
    RunItemCovers(s, fs, engine, st.locked);
    RunItemWeighs(s, h, fs, clock, engine, st.locked);
    LoopTasks(RunItem(s, h, fs, clock, engine), ItemResults(s, fs, st.locked, engine), ItemAdds(s, fs, st.locked, engine),
              StreamTasks(h, s.binPath, engine), st.(tasksProcessed := 0), |s.playbooks|);
  }

  /** A `run_all` in which every playbook goes through has appended every
      playbook's stream, in playbook order, and the counter holds the tasks
      of exactly those streams. */
  lemma RunAllRunsEverything(s: Settings, h: Handler, st: State, fs: Files,
                             clock: nat -> string, engine: nat -> EngineOutcome)
    requires AllGoThrough(s, fs, st.locked, engine)
    ensures var r := RunAll(s, h, st, fs, clock, engine);
      && r.result.Success?
      && r.state.history == st.history + Items(Streams(s.binPath, engine), 0, |s.playbooks|)
      && r.state.tasksProcessed
         == if CountsTasks(h) then TotalTasks(Items(Streams(s.binPath, engine), 0, |s.playbooks|)) else 0
  {
    AllItemsSucceed(s, fs, st.locked, engine);
    RunAllSucceedsIff(s, h, st, fs, clock, engine);
    RunAllHistory(s, h, st, fs, clock, engine);
    RunAllTasks(s, h, st, fs, clock, engine);
    StreamTasksTotal(h, s.binPath, engine, 0, |s.playbooks|);
  }

  /** A `run_all` that fails has a first playbook that does not go through. */
  lemma RunAllFailureHasFirst(s: Settings, h: Handler, st: State, fs: Files,
                              clock: nat -> string, engine: nat -> EngineOutcome)
    requires RunAll(s, h, st, fs, clock, engine).result.Failure?
    ensures exists k: nat :: FirstFailure(ItemResults(s, fs, st.locked, engine), 0, |s.playbooks|, k)
  {
    RunItemDetermined(s, h, fs, clock, engine, st.locked);
    LoopSucceedsIff(RunItem(s, h, fs, clock, engine), LockedIs(st.locked), ItemResults(s, fs, st.locked, engine),
                    st.(tasksProcessed := 0), 0, |s.playbooks|);
    FirstFailureExists(ItemResults(s, fs, st.locked, engine), 0, |s.playbooks|);
  }

  /** The history after a batch of such steps that stops at item `k` (stated
      over an arbitrary step, as `LoopHistory` is). */
  lemma LoopHistoryAt(step: (State, nat) -> Outcome<State>, res: nat -> Result<(), Error>, adds: nat -> bool,
                      item: nat -> seq<Event>, st0: State, n: nat, k: nat)
    requires Determined(step, LockedIs(st0.locked), res, 0, n)
    requires Covers(res, adds, 0, n)
    requires Records(step, LockedIs(st0.locked), adds, History(), item, 0, n)
    requires FirstFailure(res, 0, n, k)
    ensures Loop(step, st0, 0, n).state.history == st0.history + Items(item, 0, k) + if adds(k) then [item(k)] else []
  {
    LoopTraceAt(step, LockedIs(st0.locked), res, adds, History(), item, st0, 0, n, k);
  }

  /** The counter after a batch of such steps that stops at item `k` (stated
      over an arbitrary step, as `LoopHistory` is). */
  lemma LoopTasksAt(step: (State, nat) -> Outcome<State>, res: nat -> Result<(), Error>, adds: nat -> bool,
                    w: nat -> nat, st0: State, n: nat, k: nat)
    requires Determined(step, LockedIs(st0.locked), res, 0, n)
    requires Covers(res, adds, 0, n)
    requires Weighs(step, LockedIs(st0.locked), adds, TasksProcessed(), w, 0, n)
    requires FirstFailure(res, 0, n, k)
    ensures Loop(step, st0, 0, n).state.tasksProcessed == st0.tasksProcessed + Sum(w, 0, k) + if adds(k) then w(k) else 0
  {
    LoopCountAt(step, LockedIs(st0.locked), res, adds, TasksProcessed(), w, st0, 0, n, k);
  }

  /** The streams a batch that stops at item `k` appends. */
  lemma RunAllHistoryAt(s: Settings, h: Handler, st: State, fs: Files,
                        clock: nat -> string, engine: nat -> EngineOutcome, k: nat)
    requires FirstFailure(ItemResults(s, fs, st.locked, engine), 0, |s.playbooks|, k)
    ensures RunAll(s, h, st, fs, clock, engine).state.history
         == st.history + Items(Streams(s.binPath, engine), 0, k)
            + if ItemAdds(s, fs, st.locked, engine)(k) then [EngineEvents(s.binPath, engine(k))] else []
  {
    RunItemDetermined(s, h, fs, clock, engine, st.locked);
    RunItemCovers(s, fs, engine, st.locked);
    RunItemRecords(s, h, fs, clock, engine, st.locked);
    LoopHistoryAt(RunItem(s, h, fs, clock, engine), ItemResults(s, fs, st.locked, engine), ItemAdds(s, fs, st.locked, engine),
                  Streams(s.binPath, engine), st.(tasksProcessed := 0), |s.playbooks|, k);
  }

  /** The counter after a batch that stops at item `k`. */
  lemma RunAllTasksAt(s: Settings, h: Handler, st: State, fs: Files,
                      clock: nat -> string, engine: nat -> EngineOutcome, k: nat)
    requires FirstFailure(ItemResults(s, fs, st.locked, engine), 0, |s.playbooks|, k)
    ensures RunAll(s, h, st, fs, clock, engine).state.tasksProcessed
         == Sum(StreamTasks(h, s.binPath, engine), 0, k)
            + if ItemAdds(s, fs, st.locked, engine)(k) then StreamTasks(h, s.binPath, engine)(k) else 0
  {
    RunItemDetermined(s, h, fs, clock, engine, st.locked);
    RunItemCovers(s, fs, engine, st.locked);
    RunItemWeighs(s, h, fs, clock, engine, st.locked);
    LoopTasksAt(RunItem(s, h, fs, clock, engine), ItemResults(s, fs, st.locked, engine), ItemAdds(s, fs, st.locked, engine),
                StreamTasks(h, s.binPath, engine), st.(tasksProcessed := 0), |s.playbooks|, k);
  }

  /** The result of a batch that stops at item `k`. */
  lemma RunAllResultAt(s: Settings, h: Handler, st: State, fs: Files,
                       clock: nat -> string, engine: nat -> EngineOutcome, k: nat)
    requires FirstFailure(ItemResults(s, fs, st.locked, engine), 0, |s.playbooks|, k)
    ensures RunAll(s, h, st, fs, clock, engine).result == ItemResult(s, fs, st.locked, engine, k)
  {
    var step := RunItem(s, h, fs, clock, engine);
    var st0 := st.(tasksProcessed := 0);
    assert RunAll(s, h, st, fs, clock, engine) == Loop(step, st0, 0, |s.playbooks|);
    RunItemDetermined(s, h, fs, clock, engine, st.locked);
    LoopFailsAt(step, LockedIs(st.locked), ItemResults(s, fs, st.locked, engine), st0, 0, |s.playbooks|, k);
  }

  /** `run_all` stops at the first playbook `k` that does not go through and
      raises what it raised. The playbooks before it have each appended their
      stream; `k` appends its own only if it reached a built runner; none after
      it runs; and the counter holds the tasks of exactly the appended
      streams. */
  lemma RunAllStopsAt(s: Settings, h: Handler, st: State, fs: Files,
                      clock: nat -> string, engine: nat -> EngineOutcome, k: nat)
    requires FirstFailure(ItemResults(s, fs, st.locked, engine), 0, |s.playbooks|, k)
    ensures var r := RunAll(s, h, st, fs, clock, engine);
      var added := Items(Streams(s.binPath, engine), 0, k)
                   + if ItemAdds(s, fs, st.locked, engine)(k) then [EngineEvents(s.binPath, engine(k))] else [];
      && r.result == ItemResult(s, fs, st.locked, engine, k)
      && r.state.history == st.history + added
      && r.state.tasksProcessed == if CountsTasks(h) then TotalTasks(added) else 0
  {
    var before := Items(Streams(s.binPath, engine), 0, k);
    var last: seq<seq<Event>> := if ItemAdds(s, fs, st.locked, engine)(k) then [EngineEvents(s.binPath, engine(k))] else [];
    RunAllResultAt(s, h, st, fs, clock, engine, k);
    RunAllHistoryAt(s, h, st, fs, clock, engine, k);
    AppendAssoc(st.history, before, last);
    RunAllTasksAt(s, h, st, fs, clock, engine, k);
    StreamTasksTotal(h, s.binPath, engine, 0, k);
    TotalTasksAppend(before, last);
    if ItemAdds(s, fs, st.locked, engine)(k) {
      TotalTasksSingle(EngineEvents(s.binPath, engine(k)));
    } else {
      assert before + last == before;
    }
  }

  /** A configuration error in playbook `k` surfaces only after every
      earlier playbook has run and appended its stream. */
  lemma RunAllConfigErrorAfterRuns(s: Settings, h: Handler, st: State, fs: Files,
                                   clock: nat -> string, engine: nat -> EngineOutcome, k: nat)
    requires FirstFailure(ItemResults(s, fs, st.locked, engine), 0, |s.playbooks|, k)
    requires Collate(s, s.playbooks[k], fs).Failure?
    ensures var r := RunAll(s, h, st, fs, clock, engine);
      && r.result == Failure(Collate(s, s.playbooks[k], fs).error)
      && r.state.history == st.history + Items(Streams(s.binPath, engine), 0, k)
  {
    RunAllStopsAt(s, h, st, fs, clock, engine, k);
    assert !ItemAdds(s, fs, st.locked, engine)(k);
    assert Items(Streams(s.binPath, engine), 0, k) + [] == Items(Streams(s.binPath, engine), 0, k);
  }

  /** `run_all` as its own comment says it should behave: collate every
      playbook first, and run nothing unless all of them collate. */
  function RunAllPrecollated(s: Settings, h: Handler, st: State, fs: Files,
                             clock: nat -> string, engine: nat -> EngineOutcome): Outcome<State>
  {
    match CollateFrom(s, fs, 0)
    case Failure(e) => Outcome(st, Failure(e))
    case Success(cfgs) => Loop(RunCollated(s, h, fs, clock, engine, cfgs), st.(tasksProcessed := 0), 0, |cfgs|)
  }

  /** The step of the pre-collating batch: `run` an already collated config. */
  function RunCollated(s: Settings, h: Handler, fs: Files, clock: nat -> string, engine: nat -> EngineOutcome,
                       cfgs: seq<PlaybookConfig>): (State, nat) -> Outcome<State>
  {
    (st: State, j: nat) =>
      if j < |cfgs| then
        var step := Run(s, h, st, cfgs[j], 0, false, fs, clock(j), engine(j));
        Outcome(step.state, step.result)
      else Outcome(st, Success(()))
  }

  /** With collation first, a configuration error runs nothing: the state is
      untouched and the first bad playbook's error is raised. */
  lemma PrecollatedFailsFast(s: Settings, h: Handler, st: State, fs: Files,
                             clock: nat -> string, engine: nat -> EngineOutcome, k: nat)
    requires FirstUncollatable(s, fs, 0, k)
    ensures RunAllPrecollated(s, h, st, fs, clock, engine) == Outcome(st, Failure(Collate(s, s.playbooks[k], fs).error))
  {
    CollateFromReportsFirst(s, fs, 0, k);
  }

  /** Running a pre-collated config is the same step as collating and then
      running, playbook by playbook. */
  lemma CollatedStepsAgree(s: Settings, h: Handler, fs: Files, clock: nat -> string, engine: nat -> EngineOutcome)
    requires CollateFrom(s, fs, 0).Success?
    ensures forall st': State, j | 0 <= j < |s.playbooks| ::
      RunCollated(s, h, fs, clock, engine, CollateFrom(s, fs, 0).value)(st', j) == RunItem(s, h, fs, clock, engine)(st', j)
  {
    var cfgs := CollateFrom(s, fs, 0).value;
    CollateFromValues(s, fs, 0);
    forall st': State, j | 0 <= j < |s.playbooks|
      ensures RunCollated(s, h, fs, clock, engine, cfgs)(st', j) == RunItem(s, h, fs, clock, engine)(st', j)
    {
      assert Collate(s, s.playbooks[j], fs) == Success(cfgs[j]);
    }
  }

  /** When every playbook collates, collating first changes nothing. */
  lemma PrecollatedAgrees(s: Settings, h: Handler, st: State, fs: Files,
                          clock: nat -> string, engine: nat -> EngineOutcome)
    requires forall j | 0 <= j < |s.playbooks| :: Collate(s, s.playbooks[j], fs).Success?
    ensures RunAllPrecollated(s, h, st, fs, clock, engine) == RunAll(s, h, st, fs, clock, engine)
  {
    CollatedStepsAgree(s, h, fs, clock, engine);
    LoopAgrees(RunCollated(s, h, fs, clock, engine, CollateFrom(s, fs, 0).value), RunItem(s, h, fs, clock, engine),
               st.(tasksProcessed := 0), 0, |s.playbooks|);
  }
}
