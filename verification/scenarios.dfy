/** Concrete batches: the test suite's configuration, the precedence of vars
    files over explicit variables, and a two-playbook batch whose second
    playbook names a missing vars file. */
module Scenarios {
  import opened Results
  import opened Errors
  import opened Variables
  import opened Config
  import opened Collation
  import opened Events
  import opened Engine
  import opened Batches
  import opened BatchItems
  import AnsiblePlaybill
  import Playbill

  /** The test suite's orchestrator: one global variable, and one playbook
      with a variable of its own and no vars files. */
  const TestSettings: Settings :=
    Settings("test/ansible", [], map["sixteen" := Str("THIS IS SIXTEEN")],
             [PlaybookConfig(OnePath("play.test.yml"), [], map["thirtytwo" := Str("THIS IS THIRTYTWO")])],
             false, "/tmp", Some("/usr/bin"))

  /** Collating the test playbook merges both variables and leaves no vars
      files behind. */
  lemma TestPlaybookCollates(fs: Files)
    ensures Collate(TestSettings, TestSettings.playbooks[0], fs)
         == Success(PlaybookConfig(OnePath("play.test.yml"), [],
                                   map["sixteen" := Str("THIS IS SIXTEEN"), "thirtytwo" := Str("THIS IS THIRTYTWO")]))
  {
    var pb := TestSettings.playbooks[0];
    var explicit := map[] + TestSettings.globalVars + pb.extraVars;
    assert VarsFiles(TestSettings, pb) == [];
    assert UpdateFromFiles(fs, explicit, []) == Success(explicit);
    assert explicit == map["sixteen" := Str("THIS IS SIXTEEN"), "thirtytwo" := Str("THIS IS THIRTYTWO")];
  }

  /** A vars file setting `x` to 1 beats an explicit global `x` of 2. */
  lemma FileBeatsExplicitGlobal()
    ensures var s := Settings("", ["vars.yml"], map["x" := Int(2)], [], false, "", None);
      var pb := PlaybookConfig(OnePath("site.yml"), [], map[]);
      Collate(s, pb, map["vars.yml" := Parsed(map["x" := Int(1)])])
        == Success(PlaybookConfig(OnePath("site.yml"), [], map["x" := Int(1)]))
  {
    var s := Settings("", ["vars.yml"], map["x" := Int(2)], [], false, "", None);
    var pb := PlaybookConfig(OnePath("site.yml"), [], map[]);
    var fs := map["vars.yml" := Parsed(map["x" := Int(1)])];
    var explicit := map[] + s.globalVars + pb.extraVars;
    assert VarsFiles(s, pb) == ["vars.yml"];
    assert ParseVarsFile(fs, "vars.yml") == Success(map["x" := Int(1)]);
    assert UpdateFromFiles(fs, explicit, ["vars.yml"]) == UpdateFromFiles(fs, explicit + map["x" := Int(1)], []);
    assert explicit + map["x" := Int(1)] == map["x" := Int(1)];
  }

  /** The global vars files are read before the playbook's own, so a
      playbook's file beats a global file. */
  lemma PlaybookFileBeatsGlobalFile()
    ensures var s := Settings("", ["global.yml"], map[], [], false, "", None);
      var pb := PlaybookConfig(OnePath("site.yml"), ["own.yml"], map["x" := Int(3)]);
      var fs := map["global.yml" := Parsed(map["x" := Int(1)]), "own.yml" := Parsed(map["x" := Int(2)])];
      Collate(s, pb, fs) == Success(PlaybookConfig(OnePath("site.yml"), [], map["x" := Int(2)]))
  {
    var s := Settings("", ["global.yml"], map[], [], false, "", None);
    var pb := PlaybookConfig(OnePath("site.yml"), ["own.yml"], map["x" := Int(3)]);
    var fs := map["global.yml" := Parsed(map["x" := Int(1)]), "own.yml" := Parsed(map["x" := Int(2)])];
    var explicit := map[] + s.globalVars + pb.extraVars;
    var paths := VarsFiles(s, pb);
    assert paths == ["global.yml", "own.yml"] && paths[1..] == ["own.yml"];
    assert ParseVarsFile(fs, "global.yml") == Success(map["x" := Int(1)]);
    assert ParseVarsFile(fs, "own.yml") == Success(map["x" := Int(2)]);
    var once := explicit + map["x" := Int(1)];
    assert UpdateFromFiles(fs, explicit, paths) == UpdateFromFiles(fs, once, ["own.yml"]);
    assert UpdateFromFiles(fs, once, ["own.yml"]) == UpdateFromFiles(fs, once + map["x" := Int(2)], []);
    assert once + map["x" := Int(2)] == map["x" := Int(2)];
  }

  /** A batch of one playbook, run with a handler that calls the default
      one, leaves one stream in the history and counts exactly the task
      events of that stream. */
  lemma OnePlaybookCountsItsTasks(s: Settings, st: AnsiblePlaybill.State, fs: Files,
                                  clock: nat -> string, engine: nat -> EngineOutcome)
    requires |s.playbooks| == 1 && AllGoThrough(s, fs, st.locked, engine)
    ensures var r := AnsiblePlaybill.RunAll(s, AnsiblePlaybill.CustomHandler(true), st, fs, clock, engine);
      && r.state.history == st.history + [EngineEvents(s.binPath, engine(0))]
      && r.state.tasksProcessed == |TaskPositions(EngineEvents(s.binPath, engine(0)))|
  {
    var evs := EngineEvents(s.binPath, engine(0));
    AnsiblePlaybill.RunAllRunsEverything(s, AnsiblePlaybill.CustomHandler(true), st, fs, clock, engine);
    assert Items(AnsiblePlaybill.Streams(s.binPath, engine), 0, 1) == [evs];
    TotalTasksSingle(evs);
    CountTasksIsTaskPositions(evs);
  }

  /** The output line of a task event. */
  const PingTask: Event := Event(Some("TASK [ping]"))

  /** A batch whose first playbook is fine and whose second names a vars
      file that does not exist. */
  const MissingFileBatch: Settings :=
    Settings("", [], map[],
             [PlaybookConfig(OnePath("first.yml"), [], map[]),
              PlaybookConfig(OnePath("second.yml"), ["missing.yml"], map[])],
             false, "/tmp", None)

  /** An engine that runs every playbook to success, emitting one task event. */
  function AlwaysSucceeds(): nat -> EngineOutcome {
    (j: nat) => Prepared(["ansible-playbook"], Finished("successful", [PingTask]))
  }

  /** In that batch the second playbook is the first that does not go
      through, and the reason is the missing file. */
  lemma MissingFileStopsSecond()
    ensures FirstFailure(ItemResults(MissingFileBatch, map[], false, AlwaysSucceeds()), 0, 2, 1)
    ensures ItemResult(MissingFileBatch, map[], false, AlwaysSucceeds(), 1) == Failure(FileNotFound("missing.yml"))
    ensures FirstUncollatable(MissingFileBatch, map[], 0, 1)
    ensures Collate(MissingFileBatch, MissingFileBatch.playbooks[1], map[]).error == FileNotFound("missing.yml")
  {
    assert Collate(MissingFileBatch, MissingFileBatch.playbooks[0], map[]).Success?;
    assert EngineSucceeds(None, AlwaysSucceeds()(0));
    assert ItemResult(MissingFileBatch, map[], false, AlwaysSucceeds(), 0).Success?;
  }

  /** The newer copy's `run_all` on that batch: the first playbook runs and
      its task is counted before the missing file is reported. Collating
      every playbook first reports the same error and leaves the state as
      it was. */
  lemma NewerRunsBeforeConfigError(clock: nat -> string)
    ensures var st := AnsiblePlaybill.State(false, 0, []);
      var r := AnsiblePlaybill.RunAll(MissingFileBatch, AnsiblePlaybill.DefaultHandler, st, map[], clock, AlwaysSucceeds());
      && r.result == Failure(FileNotFound("missing.yml"))
      && r.state.history == [[PingTask]]
      && r.state.tasksProcessed == 1
      && AnsiblePlaybill.RunAllPrecollated(MissingFileBatch, AnsiblePlaybill.DefaultHandler, st, map[], clock, AlwaysSucceeds())
         == Outcome(st, Failure(FileNotFound("missing.yml")))
  {
    var st := AnsiblePlaybill.State(false, 0, []);
    var h := AnsiblePlaybill.DefaultHandler;
    MissingFileStopsSecond();
    AnsiblePlaybill.RunAllStopsAt(MissingFileBatch, h, st, map[], clock, AlwaysSucceeds(), 1);
    assert !AnsiblePlaybill.ItemAdds(MissingFileBatch, map[], false, AlwaysSucceeds())(1);
    var evs := AnsiblePlaybill.Streams(None, AlwaysSucceeds())(0);
    assert evs == [PingTask];
    assert Items(AnsiblePlaybill.Streams(None, AlwaysSucceeds()), 0, 1) == [[PingTask]];
    TotalTasksSingle([PingTask]);
    assert IsTaskEvent(PingTask);
    AnsiblePlaybill.PrecollatedFailsFast(MissingFileBatch, h, st, map[], clock, AlwaysSucceeds(), 1);
  }

  /** The older copy's `run_all` on that batch: the first playbook's request
      reaches the engine before the missing file is reported. Collating every
      playbook first sends nothing. */
  lemma OlderRunsBeforeConfigError(clock: nat -> string)
    ensures var r := Playbill.RunAll(MissingFileBatch, Playbill.State(false), map[], clock, AlwaysSucceeds());
      && r.result == Failure(FileNotFound("missing.yml"))
      && r.state.reached == [0]
      && Playbill.RunAllPrecollated(MissingFileBatch, Playbill.State(false), map[], clock, AlwaysSucceeds())
         == Outcome(Playbill.Batch(Playbill.State(false), []), Failure(FileNotFound("missing.yml")))
  {
    MissingFileStopsSecond();
    Playbill.RunAllStopsAt(MissingFileBatch, Playbill.State(false), map[], clock, AlwaysSucceeds(), 1);
    assert !Playbill.ItemSent(MissingFileBatch, map[], false, AlwaysSucceeds())(1);
    assert Items(Playbill.Position(), 0, 1) == [0];
    Playbill.PrecollatedFailsFast(MissingFileBatch, Playbill.State(false), map[], clock, AlwaysSucceeds(), 1);
  }
}
