/** The narrow contract with `ansible_runner`, shared by both copies of the
    wrapper: the request handed to the engine, the engine's possible outcomes
    (an oracle), and the `try` block plus status check that turns them into the
    wrapper's result. */
module Engine {
  import opened Results
  import opened Errors
  import opened Variables
  import opened Config
  import opened Events

  /** The fixed host pattern every run targets. */
  const HostPattern: string := "localhost"

  /** The only terminal status the wrapper accepts. */
  const SuccessfulStatus: string := "successful"

  /** What happens once a `Runner` is to be built from the prepared config. */
  datatype Execution =
    | RunnerRaised                                  // building the `Runner` raised
    | RunRaised(emitted: seq<Event>)                // `runner.run()` raised after emitting these events
    | Finished(status: string, emitted: seq<Event>) // `runner.run()` returned with this status

  /** The engine as an oracle: either building or preparing the `RunnerConfig`
      raised, or it was prepared with this command line and then behaved as
      `execution` says. */
  datatype EngineOutcome =
    | ConfigRaised
    | Prepared(command: seq<string>, execution: Execution)

  /** `f"ansible-runner-{now}.log"`, the timestamp `now` taken as opaque text. */
  function LogFileName(now: string): string {
    "ansible-runner-" + now + ".log"
  }

  /** What the wrapper hands to the engine for one run. */
  datatype Request = Request(
    privateDataDir: string,
    playbook: PlaybookPaths,
    extraVars: Vars,
    hostPattern: string,
    verbosity: int,
    quiet: bool,
    command: seq<string>,
    logPath: string)

  /** `if self.ansible_bin_path:` -- set and non-empty. */
  predicate BinPathSet(binPath: Option<string>) {
    binPath.Some? && binPath.value != ""
  }

  /** Rewrites `command[0]` to `<binPath>/<command[0]>` when a bin path is set.
      Indexing an empty command raises inside the `try`, which the wrapper
      reports as a failed run. */
  function PrefixCommand(binPath: Option<string>, command: seq<string>): (r: Result<seq<string>, Error>)
    ensures r.Failure? <==> BinPathSet(binPath) && command == []
    ensures r.Failure? ==> r.error == RunFailed
    ensures r.Success? ==> |r.value| == |command|
    ensures r.Success? ==> forall i :: 1 <= i < |command| ==> r.value[i] == command[i]
    ensures r.Success? && !BinPathSet(binPath) ==> r.value == command
    ensures r.Success? && BinPathSet(binPath) ==> r.value[0] == binPath.value + "/" + command[0]
  {
    if !BinPathSet(binPath) then Success(command)
    else if command == [] then Failure(RunFailed)
    else Success([binPath.value + "/" + command[0]] + command[1..])
  }

  /** Undoes the bin-path rewrite of the first element. */
  function StripBinPath(binPath: Option<string>, command: seq<string>): seq<string> {
    if BinPathSet(binPath) && command != [] && binPath.value + "/" <= command[0]
    then [command[0][|binPath.value| + 1..]] + command[1..]
    else command
  }

  /** The bin-path rewrite loses nothing: stripping it gives back the prepared
      command. */
  lemma PrefixCommandRoundTrip(binPath: Option<string>, command: seq<string>)
    requires PrefixCommand(binPath, command).Success?
    ensures StripBinPath(binPath, PrefixCommand(binPath, command).value) == command
  {
    if BinPathSet(binPath) {
      var p := binPath.value + "/";
      var c := PrefixCommand(binPath, command).value;
      assert c[0] == p + command[0];
      assert c[0][|binPath.value| + 1..] == command[0];
      assert [command[0]] + command[1..] == command;
    }
  }

  /** `quiet = False; if not self.debug: quiet = True`. */
  function Quiet(debug: bool): (quiet: bool)
    ensures quiet <==> !debug
  {
    if !debug then true else false
  }

  /** The `RunnerConfig` arguments plus the rewritten command and the log path
      the copied environment carries. */
  function MakeRequest(s: Settings, pb: PlaybookConfig, verbosity: int, command: seq<string>, logPath: string)
    : (r: Request)
    ensures r.privateDataDir == s.playbookRoot && r.playbook == pb.playbookPaths && r.extraVars == pb.extraVars
    ensures r.hostPattern == "localhost" && r.verbosity == verbosity && r.quiet == !s.debug
    ensures r.command == command && r.logPath == logPath
  {
    Request(s.playbookRoot, pb.playbookPaths, pb.extraVars, HostPattern, verbosity, Quiet(s.debug), command, logPath)
  }

  /** The engine ran to completion with status "successful" and nothing on the
      way raised. */
  predicate EngineSucceeds(binPath: Option<string>, o: EngineOutcome) {
    && o.Prepared?
    && PrefixCommand(binPath, o.command).Success?
    && o.execution.Finished?
    && o.execution.status == SuccessfulStatus
  }

  /** The `Runner` object was built, so its event stream exists. */
  predicate RunnerBuilt(binPath: Option<string>, o: EngineOutcome) {
    o.Prepared? && PrefixCommand(binPath, o.command).Success? && !o.execution.RunnerRaised?
  }

  /** The event stream of a built runner; empty when none was built. */
  function EngineEvents(binPath: Option<string>, o: EngineOutcome): seq<Event> {
    if RunnerBuilt(binPath, o) then o.execution.emitted else []
  }

  /** One pass through the `try` block and the status check. */
  datatype Attempt = Attempt(
    command: Option<seq<string>>,   // the command line, once prepared and rewritten
    emitted: Option<seq<Event>>,    // the runner's event stream, once the runner exists
    result: Result<(), Error>)

  /** Every exception inside the `try` becomes "Failed to run ansible"; a run
      that returns with any other status than "successful" becomes "Ansible
      playbook fail". */
  function Execute(binPath: Option<string>, o: EngineOutcome): (r: Attempt)
    ensures r.result.Success? <==> EngineSucceeds(binPath, o)
    ensures r.result.Failure? ==> r.result.error == RunFailed || r.result.error == PlaybookFailed
    ensures r.result == Failure(PlaybookFailed)
        <==> RunnerBuilt(binPath, o) && o.execution.Finished? && o.execution.status != SuccessfulStatus
    ensures r.command.Some? <==> o.Prepared? && PrefixCommand(binPath, o.command).Success?
    ensures r.command.Some? ==> r.command.value == PrefixCommand(binPath, o.command).value
    ensures r.command.Some? ==> StripBinPath(binPath, r.command.value) == o.command
    ensures r.emitted.Some? <==> RunnerBuilt(binPath, o)
    ensures r.emitted.Some? ==> r.emitted.value == EngineEvents(binPath, o)
  {
    match o
    case ConfigRaised => Attempt(None, None, Failure(RunFailed))
    case Prepared(cmd, execution) =>
      match PrefixCommand(binPath, cmd)
      case Failure(e) => Attempt(None, None, Failure(e))
      case Success(cmd') =>
        PrefixCommandRoundTrip(binPath, cmd);
        match execution
        case RunnerRaised => Attempt(Some(cmd'), None, Failure(RunFailed))
        case RunRaised(evs) => Attempt(Some(cmd'), Some(evs), Failure(RunFailed))
        case Finished(status, evs) =>
          Attempt(Some(cmd'), Some(evs), if status != SuccessfulStatus then Failure(PlaybookFailed) else Success(()))
  }
}
