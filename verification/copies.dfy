/** The two copies of the wrapper side by side: where they behave alike and
    where they part. */
module Copies {
  import opened Results
  import opened Errors
  import opened Config
  import opened Collation
  import opened Engine
  import opened Batches
  import opened BatchItems
  import AnsiblePlaybill
  import Playbill

  /** With a prefix that does not end in "/", both copies log to the same
      file. */
  lemma LogPathsAgree(logPrefix: string, now: string)
    requires logPrefix != [] && logPrefix[|logPrefix| - 1] != '/'
    ensures Playbill.LogPath(logPrefix, now) == AnsiblePlaybill.LogPath(logPrefix, now)
  {
  }

  /** The prefixes where they part: the older copy doubles a trailing
      separator and turns the empty prefix into the root directory, while
      the newer one joins as the path library does. */
  lemma LogPathsDiffer(now: string)
    ensures Playbill.LogPath("/tmp/", now) == "/tmp//" + LogFileName(now)
    ensures AnsiblePlaybill.LogPath("/tmp/", now) == "/tmp/" + LogFileName(now)
    ensures Playbill.LogPath("", now) == "/" + LogFileName(now)
    ensures AnsiblePlaybill.LogPath("", now) == LogFileName(now)
  {
  }

  /** Both copies' `run` raise the same thing, except when the guard is held
      and collation fails: the older copy collates first and raises the
      configuration error, the newer one checks the guard first and raises
      "already running". */
  lemma RunsRaiseAlike(s: Settings, h: AnsiblePlaybill.Handler, st: AnsiblePlaybill.State, pb: PlaybookConfig,
                       verbosity: int, collate: bool, fs: Files, now: string, o: EngineOutcome)
    ensures var newer := AnsiblePlaybill.Run(s, h, st, pb, verbosity, collate, fs, now, o);
      var older := Playbill.Run(s, Playbill.State(st.locked), pb, verbosity, collate, fs, now, o);
      && (newer.result == older.result <==> !(st.locked && !Collates(s, pb, collate, fs)))
      && (st.locked && !Collates(s, pb, collate, fs) ==>
            newer.result == Failure(AlreadyRunning) && older.result == Failure(Collate(s, pb, fs).error))
  {
    AnsiblePlaybill.RunOutcome(s, h, st, pb, verbosity, collate, fs, now, o);
    Playbill.RunOutcome(s, Playbill.State(st.locked), pb, verbosity, collate, fs, now, o);
  }

  /** Both copies hand the engine the same request, save for the log path. */
  lemma RunRequestsAgree(s: Settings, h: AnsiblePlaybill.Handler, st: AnsiblePlaybill.State, pb: PlaybookConfig,
                         verbosity: int, collate: bool, fs: Files, now: string, o: EngineOutcome)
    ensures var newer := AnsiblePlaybill.Run(s, h, st, pb, verbosity, collate, fs, now, o);
      var older := Playbill.Run(s, Playbill.State(st.locked), pb, verbosity, collate, fs, now, o);
      && (newer.request.Some? <==> older.request.Some?)
      && (newer.request.Some? ==>
            newer.request.value == older.request.value.(logPath := AnsiblePlaybill.LogPath(s.logPrefix, now)))
  {
    AnsiblePlaybill.RunRequest(s, h, st, pb, verbosity, collate, fs, now, o);
    Playbill.RunRequest(s, Playbill.State(st.locked), pb, verbosity, collate, fs, now, o);
  }

  /** For the same batch both copies' `run_all` raise the same thing: each
      collates a playbook before calling `run` on it, so the two orders of
      the guard check and collation inside `run` never come into play. */
  lemma RunAllsRaiseAlike(s: Settings, h: AnsiblePlaybill.Handler, st: AnsiblePlaybill.State, fs: Files,
                          clock: nat -> string, engine: nat -> EngineOutcome)
    ensures AnsiblePlaybill.RunAll(s, h, st, fs, clock, engine).result
         == Playbill.RunAll(s, Playbill.State(st.locked), fs, clock, engine).result
  {
    AnsiblePlaybill.RunAllSucceedsIff(s, h, st, fs, clock, engine);
    Playbill.RunAllSucceedsIff(s, Playbill.State(st.locked), fs, clock, engine);
    AllItemsSucceed(s, fs, st.locked, engine);
    if !AllGoThrough(s, fs, st.locked, engine) {
      FirstFailureExists(ItemResults(s, fs, st.locked, engine), 0, |s.playbooks|);
      var k: nat :| FirstFailure(ItemResults(s, fs, st.locked, engine), 0, |s.playbooks|, k);
      AnsiblePlaybill.RunAllResultAt(s, h, st, fs, clock, engine, k);
      Playbill.RunAllStopsAt(s, Playbill.State(st.locked), fs, clock, engine, k);
    } else {
      var newer := AnsiblePlaybill.RunAll(s, h, st, fs, clock, engine).result;
      var older := Playbill.RunAll(s, Playbill.State(st.locked), fs, clock, engine).result;
      assert newer.value == () == older.value;
    }
  }

  /** The same holds for the pre-collating batches: a configuration error is
      raised before anything runs in either copy, and otherwise both behave
      as their `run_all`. */
  lemma PrecollatedRaiseAlike(s: Settings, h: AnsiblePlaybill.Handler, st: AnsiblePlaybill.State, fs: Files,
                              clock: nat -> string, engine: nat -> EngineOutcome)
    ensures AnsiblePlaybill.RunAllPrecollated(s, h, st, fs, clock, engine).result
         == Playbill.RunAllPrecollated(s, Playbill.State(st.locked), fs, clock, engine).result
  {
    if forall j | 0 <= j < |s.playbooks| :: Collate(s, s.playbooks[j], fs).Success? {
      AnsiblePlaybill.PrecollatedAgrees(s, h, st, fs, clock, engine);
      Playbill.PrecollatedAgrees(s, Playbill.State(st.locked), fs, clock, engine);
      RunAllsRaiseAlike(s, h, st, fs, clock, engine);
    }
  }
}
