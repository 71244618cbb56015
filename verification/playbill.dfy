/** The older copy of the wrapper. It differs from the newer one in three
    ways that matter here: `run` collates before it looks at the guard, the
    log path is built by plain string formatting, and the engine is given no
    event handler, so the wrapper keeps neither an event history nor a task
    counter. Its only state is the guard. */
module Playbill {
  import opened Results
  import opened Errors
  import opened Config
  import opened Collation
  import opened Engine
  import opened Batches
  import opened BatchItems

  /** The guard (`Idle` when `locked` is false). */
  datatype State = State(locked: bool)

  /** One call of `run`: the state afterwards, whether it raised, and the
      request the engine received, if one was built. */
  datatype Step = Step(state: State, result: Result<(), Error>, request: Option<Request>)

  /** `f"{log_prefix}/ansible-runner-{now}.log"`: the prefix, one "/", and the
      file name, whatever the prefix looks like. An empty prefix gives an
      absolute path, and a prefix ending in "/" gives a doubled separator. */
  function LogPath(logPrefix: string, now: string): (p: string)
    ensures |p| == |logPrefix| + 1 + |LogFileName(now)|
    ensures p[..|logPrefix|] == logPrefix
    ensures p[|logPrefix|] == '/'
    ensures p[|logPrefix| + 1..] == "ansible-runner-" + now + ".log"
  {
    logPrefix + "/" + LogFileName(now)
  }

  /** The body of `with self.__runner_lock:` -- runs with the guard held and
      with the configuration already collated. */
  function RunGuarded(s: Settings, st: State, cfg: PlaybookConfig, verbosity: int, now: string,
                      o: EngineOutcome): (r: Step)
    requires st.locked
    ensures r.state == st
    ensures r.result == Execute(s.binPath, o).result
  {
    var attempt := Execute(s.binPath, o);
    var request :=
      if attempt.command.Some?
      then Some(MakeRequest(s, cfg, verbosity, attempt.command.value, LogPath(s.logPrefix, now)))
      else None;
    Step(st, attempt.result, request)
  }

  /** `run`: collate if asked, then fail fast when the guard is held,
      otherwise take it, run the body and release it on every way out. */
  function Run(s: Settings, st: State, pb: PlaybookConfig, verbosity: int, collate: bool,
               fs: Files, now: string, o: EngineOutcome): (r: Step)
    ensures r.state == st
  {
    var collated := if collate then Collate(s, pb, fs) else Success(pb);
    match collated
    case Failure(e) => Step(st, Failure(e), None)
    case Success(cfg) =>
      if st.locked then
        Step(st, Failure(AlreadyRunning), None)
      else
        var held := RunGuarded(s, st.(locked := true), cfg, verbosity, now, o);
        held.(state := held.state.(locked := false))
  }

  /** How `run` ends. A configuration error is raised whether or not the
      guard is held, since collation comes first; with a good configuration a
      held guard raises "already running"; otherwise the engine's run decides.
      The state is left as it was on every way out. */
  lemma RunOutcome(s: Settings, st: State, pb: PlaybookConfig, verbosity: int, collate: bool,
                   fs: Files, now: string, o: EngineOutcome)
    ensures var r := Run(s, st, pb, verbosity, collate, fs, now, o);
      && r.state == st
      && (r.result.Success? <==> !st.locked && Collates(s, pb, collate, fs) && EngineSucceeds(s.binPath, o))
      && (!Collates(s, pb, collate, fs) ==> r.result == Failure(Collate(s, pb, fs).error) && r.request.None?)
      && (Collates(s, pb, collate, fs) && st.locked ==> r.result == Failure(AlreadyRunning) && r.request.None?)
      && (Collates(s, pb, collate, fs) && !st.locked ==> r.result == Execute(s.binPath, o).result)
  {
  }

  /** What the engine is handed: the collated variables, the fixed host
      pattern, `quiet == not debug`, the run's log path and the command with
      the bin path prefixed. A request exists exactly when collation went
      through, the guard was free and the engine prepared a command that
      could be rewritten. */
  lemma RunRequest(s: Settings, st: State, pb: PlaybookConfig, verbosity: int, collate: bool,
                   fs: Files, now: string, o: EngineOutcome)
    ensures var r := Run(s, st, pb, verbosity, collate, fs, now, o);
      && (r.request.Some? <==>
            !st.locked && Collates(s, pb, collate, fs) && o.Prepared? && PrefixCommand(s.binPath, o.command).Success?)
      && (r.request.Some? ==>
            && r.request.value.privateDataDir == s.playbookRoot
            && r.request.value.playbook == pb.playbookPaths
            && r.request.value.extraVars == (if collate then Collate(s, pb, fs).value.extraVars else pb.extraVars)
            && r.request.value.hostPattern == "localhost"
            && r.request.value.verbosity == verbosity
            && r.request.value.quiet == !s.debug
            && r.request.value.logPath == s.logPrefix + "/ansible-runner-" + now + ".log"
            && r.request.value.command == PrefixCommand(s.binPath, o.command).value
            && StripBinPath(s.binPath, r.request.value.command) == o.command)
  {
    var collated := if collate then Collate(s, pb, fs) else Success(pb);
    if collated.Success? && !st.locked {
      var attempt := Execute(s.binPath, o);
      if attempt.command.Some? {
        var path := LogPath(s.logPrefix, now);
        assert path == s.logPrefix + "/ansible-runner-" + now + ".log";
        var req := MakeRequest(s, collated.value, verbosity, attempt.command.value, path);
        assert Run(s, st, pb, verbosity, collate, fs, now, o).request == Some(req);
      }
    }
  }

  /** A batch in progress: the wrapper's state, and the positions of the
      playbooks whose request the engine has received so far, in order. */
  datatype Batch = Batch(state: State, reached: seq<nat>)

  /** The step `run_all` takes for playbook `j`: collate it, then `run` the
      result without collating again. */
  function RunItem(s: Settings, fs: Files, clock: nat -> string, engine: nat -> EngineOutcome)
    : (Batch, nat) -> Outcome<Batch>
  {
    (b: Batch, j: nat) =>
      if j < |s.playbooks| then
        match Collate(s, s.playbooks[j], fs)
        case Failure(e) => Outcome(b, Failure(e))
        case Success(cfg) =>
          var step := Run(s, b.state, cfg, 0, false, fs, clock(j), engine(j));
          Outcome(Batch(step.state, b.reached + if step.request.Some? then [j] else []), step.result)
      else Outcome(b, Success(()))
  }

  /** `run_all`: run every playbook in list order, stopping at the first
      raise. Unlike the newer copy there is no counter to reset. */
  function RunAll(s: Settings, st: State, fs: Files, clock: nat -> string, engine: nat -> EngineOutcome)
    : Outcome<Batch>
  {
    Loop(RunItem(s, fs, clock, engine), Batch(st, []), 0, |s.playbooks|)
  }

  /** Playbook `j`'s request reaches the engine when the guard is `locked`. */
  function ItemSent(s: Settings, fs: Files, locked: bool, engine: nat -> EngineOutcome): nat -> bool {
    (j: nat) =>
      && j < |s.playbooks|
      && Collate(s, s.playbooks[j], fs).Success?
      && !locked
      && engine(j).Prepared?
      && PrefixCommand(s.binPath, engine(j).command).Success?
  }

  function StateIs(st: State): Batch -> bool {
    (b: Batch) => b.state == st
  }

  function Reached(): Batch -> seq<nat> {
    (b: Batch) => b.reached
  }

  function Position(): nat -> nat {
    (j: nat) => j
  }

  /** One playbook of the batch, from any batch whose state is `st`, raises
      `ItemResult` and leaves the state alone. */
  lemma RunItemDetermined(s: Settings, fs: Files, clock: nat -> string, engine: nat -> EngineOutcome, st: State)
    ensures Determined(RunItem(s, fs, clock, engine), StateIs(st), ItemResults(s, fs, st.locked, engine),
                       0, |s.playbooks|)
  {
    var step := RunItem(s, fs, clock, engine);
    forall b: Batch, j: nat | 0 <= j < |s.playbooks| && StateIs(st)(b)
      ensures StateIs(st)(step(b, j).state) && step(b, j).result == ItemResults(s, fs, st.locked, engine)(j)
    {
      var c := Collate(s, s.playbooks[j], fs);
      if c.Success? {
        RunOutcome(s, b.state, c.value, 0, false, fs, clock(j), engine(j));
      }
    }
  }

  /** Every playbook that goes through had its request sent. */
  lemma RunItemCovers(s: Settings, fs: Files, engine: nat -> EngineOutcome, locked: bool)
    ensures Covers(ItemResults(s, fs, locked, engine), ItemSent(s, fs, locked, engine), 0, |s.playbooks|)
  {
    forall j | 0 <= j < |s.playbooks|
      ensures ItemResults(s, fs, locked, engine)(j).Success? ==> ItemSent(s, fs, locked, engine)(j)
    {
    }
  }

  /** One playbook of the batch records its position exactly when its request
      reached the engine. */
  lemma RunItemRecords(s: Settings, fs: Files, clock: nat -> string, engine: nat -> EngineOutcome, st: State)
    ensures Records(RunItem(s, fs, clock, engine), StateIs(st), ItemSent(s, fs, st.locked, engine),
                    Reached(), Position(), 0, |s.playbooks|)
  {
    var step := RunItem(s, fs, clock, engine);
    forall b: Batch, j: nat | 0 <= j < |s.playbooks| && StateIs(st)(b)
      ensures Reached()(step(b, j).state)
           == Reached()(b) + if ItemSent(s, fs, st.locked, engine)(j) then [Position()(j)] else []
    {
      var c := Collate(s, s.playbooks[j], fs);
      if c.Success? {
        RunRequest(s, b.state, c.value, 0, false, fs, clock(j), engine(j));
      }
    }
  }

  /** The positions reached by a batch of any steps that keep the state `st`,
      raise `res` and record the items in `sent`, when every item goes
      through. Stated over an arbitrary step so that the `run_all` lemmas
      never unfold the concrete step and the loop lemma together, which
      keeps their proofs cheap. */
  lemma LoopReached(step: (Batch, nat) -> Outcome<Batch>, res: nat -> Result<(), Error>, sent: nat -> bool,
                    st: State, n: nat)
    requires Determined(step, StateIs(st), res, 0, n)
    requires Covers(res, sent, 0, n)
    requires Records(step, StateIs(st), sent, Reached(), Position(), 0, n)
    requires AllSucceed(res, 0, n)
    ensures Loop(step, Batch(st, []), 0, n).state.reached == Items(Position(), 0, n)
  {
    LoopTraceAll(step, StateIs(st), res, sent, Reached(), Position(), Batch(st, []), 0, n);
  }

  /** The positions reached by such a batch when it stops at item `k`
      (stated over an arbitrary step for the same reason as `LoopReached`). */
  lemma LoopReachedAt(step: (Batch, nat) -> Outcome<Batch>, res: nat -> Result<(), Error>, sent: nat -> bool,
                      st: State, n: nat, k: nat)
    requires Determined(step, StateIs(st), res, 0, n)
    requires Covers(res, sent, 0, n)
    requires Records(step, StateIs(st), sent, Reached(), Position(), 0, n)
    requires FirstFailure(res, 0, n, k)
    ensures Loop(step, Batch(st, []), 0, n).state.reached == Items(Position(), 0, k) + if sent(k) then [k] else []
  {
    LoopTraceAt(step, StateIs(st), res, sent, Reached(), Position(), Batch(st, []), 0, n, k);
  }

  /** `run_all` leaves the guard as it found it, and succeeds exactly when
      every playbook goes through. */
  lemma RunAllSucceedsIff(s: Settings, st: State, fs: Files, clock: nat -> string, engine: nat -> EngineOutcome)
    ensures RunAll(s, st, fs, clock, engine).state.state == st
    ensures RunAll(s, st, fs, clock, engine).result.Success? <==> AllGoThrough(s, fs, st.locked, engine)
  {
    RunItemDetermined(s, fs, clock, engine, st);
    LoopSucceedsIff(RunItem(s, fs, clock, engine), StateIs(st), ItemResults(s, fs, st.locked, engine),
                    Batch(st, []), 0, |s.playbooks|);
    assert StateIs(st)(RunAll(s, st, fs, clock, engine).state);
    AllItemsSucceed(s, fs, st.locked, engine);
  }

  /** A `run_all` in which every playbook goes through has sent every
      playbook's request to the engine, in list order. */
  lemma RunAllReachesEverything(s: Settings, st: State, fs: Files, clock: nat -> string,
                                engine: nat -> EngineOutcome)
    requires AllGoThrough(s, fs, st.locked, engine)
    ensures var r := RunAll(s, st, fs, clock, engine);
      && r.result.Success?
      && |r.state.reached| == |s.playbooks|
      && forall t | 0 <= t < |s.playbooks| :: r.state.reached[t] == t
  {
    AllItemsSucceed(s, fs, st.locked, engine);
    RunAllSucceedsIff(s, st, fs, clock, engine);
    RunItemDetermined(s, fs, clock, engine, st);
    RunItemCovers(s, fs, engine, st.locked);
    RunItemRecords(s, fs, clock, engine, st);
    LoopReached(RunItem(s, fs, clock, engine), ItemResults(s, fs, st.locked, engine), ItemSent(s, fs, st.locked, engine),
                st, |s.playbooks|);
    ItemsIndexed(Position(), 0, |s.playbooks|);
  }

  /** `run_all` stops at the first playbook `k` that does not go through and
      raises what it raised. The engine has received the requests of the
      playbooks before it, in order, and `k`'s own only if `k` got that far;
      no later playbook reaches the engine. */
  lemma RunAllStopsAt(s: Settings, st: State, fs: Files, clock: nat -> string, engine: nat -> EngineOutcome, k: nat)
    requires FirstFailure(ItemResults(s, fs, st.locked, engine), 0, |s.playbooks|, k)
    ensures var r := RunAll(s, st, fs, clock, engine);
      && r.result == ItemResult(s, fs, st.locked, engine, k)
      && r.state.state == st
      && r.state.reached == Items(Position(), 0, k) + (if ItemSent(s, fs, st.locked, engine)(k) then [k] else [])
      && forall t | 0 <= t < |r.state.reached| :: r.state.reached[t] == t && t <= k
  {
    RunItemDetermined(s, fs, clock, engine, st);
    LoopFailsAt(RunItem(s, fs, clock, engine), StateIs(st), ItemResults(s, fs, st.locked, engine),
                Batch(st, []), 0, |s.playbooks|, k);
    LoopSucceedsIff(RunItem(s, fs, clock, engine), StateIs(st), ItemResults(s, fs, st.locked, engine),
                    Batch(st, []), 0, |s.playbooks|);
    RunItemCovers(s, fs, engine, st.locked);
    RunItemRecords(s, fs, clock, engine, st);
    LoopReachedAt(RunItem(s, fs, clock, engine), ItemResults(s, fs, st.locked, engine),
                  ItemSent(s, fs, st.locked, engine), st, |s.playbooks|, k);
    ItemsIndexed(Position(), 0, k);
  }

  /** `run_all` as its own comment says it should behave: collate every
      playbook first, and send nothing to the engine unless all of them
      collate. */
  function RunAllPrecollated(s: Settings, st: State, fs: Files, clock: nat -> string, engine: nat -> EngineOutcome)
    : Outcome<Batch>
  {
    match CollateFrom(s, fs, 0)
    case Failure(e) => Outcome(Batch(st, []), Failure(e))
    case Success(cfgs) => Loop(RunCollated(s, fs, clock, engine, cfgs), Batch(st, []), 0, |cfgs|)
  }

  /** The step of the pre-collating batch: `run` an already collated config. */
  function RunCollated(s: Settings, fs: Files, clock: nat -> string, engine: nat -> EngineOutcome,
                       cfgs: seq<PlaybookConfig>): (Batch, nat) -> Outcome<Batch>
  {
    (b: Batch, j: nat) =>
      if j < |cfgs| then
        var step := Run(s, b.state, cfgs[j], 0, false, fs, clock(j), engine(j));
        Outcome(Batch(step.state, b.reached + if step.request.Some? then [j] else []), step.result)
      else Outcome(b, Success(()))
  }

  /** With collation first, a configuration error sends nothing to the
      engine: the first bad playbook's error is raised and no request was
      sent. */
  lemma PrecollatedFailsFast(s: Settings, st: State, fs: Files, clock: nat -> string, engine: nat -> EngineOutcome,
                             k: nat)
    requires FirstUncollatable(s, fs, 0, k)
    ensures RunAllPrecollated(s, st, fs, clock, engine)
         == Outcome(Batch(st, []), Failure(Collate(s, s.playbooks[k], fs).error))
  {
    CollateFromReportsFirst(s, fs, 0, k);
  }

  /** Running a pre-collated config is the same step as collating and then
      running, playbook by playbook. */
  lemma CollatedStepsAgree(s: Settings, fs: Files, clock: nat -> string, engine: nat -> EngineOutcome)
    requires CollateFrom(s, fs, 0).Success?
    ensures forall b: Batch, j | 0 <= j < |s.playbooks| ::
      RunCollated(s, fs, clock, engine, CollateFrom(s, fs, 0).value)(b, j) == RunItem(s, fs, clock, engine)(b, j)
  {
    var cfgs := CollateFrom(s, fs, 0).value;
    CollateFromValues(s, fs, 0);
    forall b: Batch, j | 0 <= j < |s.playbooks|
      ensures RunCollated(s, fs, clock, engine, cfgs)(b, j) == RunItem(s, fs, clock, engine)(b, j)
    {
      assert Collate(s, s.playbooks[j], fs) == Success(cfgs[j]);
    }
  }

  /** When every playbook collates, collating first changes nothing. */
  lemma PrecollatedAgrees(s: Settings, st: State, fs: Files, clock: nat -> string, engine: nat -> EngineOutcome)
    requires forall j | 0 <= j < |s.playbooks| :: Collate(s, s.playbooks[j], fs).Success?
    ensures RunAllPrecollated(s, st, fs, clock, engine) == RunAll(s, st, fs, clock, engine)
  {
    CollatedStepsAgree(s, fs, clock, engine);
    LoopAgrees(RunCollated(s, fs, clock, engine, CollateFrom(s, fs, 0).value), RunItem(s, fs, clock, engine),
               Batch(st, []), 0, |s.playbooks|);
  }
}
