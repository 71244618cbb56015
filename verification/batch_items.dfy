/** What one playbook of a `run_all` batch raises. Both copies of `run_all`
    collate each playbook and then call `run` on the result without
    collating again, so in both a playbook raises its configuration error
    first, then the guard's error, then whatever the engine's run raises. */
module BatchItems {
  import opened Results
  import opened Errors
  import opened Config
  import opened Collation
  import opened Engine
  import opened Batches

  /** What playbook `j` of a batch raises, if anything, when the guard is
      `locked`; positions past the end raise nothing. */
  function ItemResult(s: Settings, fs: Files, locked: bool, engine: nat -> EngineOutcome, j: nat): Result<(), Error> {
    if j < |s.playbooks| then
      match Collate(s, s.playbooks[j], fs)
      case Failure(e) => Failure(e)
      case Success(_) => if locked then Failure(AlreadyRunning) else Execute(s.binPath, engine(j)).result
    else Success(())
  }

  function ItemResults(s: Settings, fs: Files, locked: bool, engine: nat -> EngineOutcome): nat -> Result<(), Error> {
    (j: nat) => ItemResult(s, fs, locked, engine, j)
  }

  /** Every playbook of the batch goes through: the guard is free, each
      configuration collates and each engine run succeeds. */
  predicate AllGoThrough(s: Settings, fs: Files, locked: bool, engine: nat -> EngineOutcome) {
    forall j | 0 <= j < |s.playbooks| ::
      !locked && Collate(s, s.playbooks[j], fs).Success? && EngineSucceeds(s.binPath, engine(j))
  }

  /** Every playbook's `ItemResult` is a success exactly when every playbook
      goes through. */
  lemma AllItemsSucceed(s: Settings, fs: Files, locked: bool, engine: nat -> EngineOutcome)
    ensures AllSucceed(ItemResults(s, fs, locked, engine), 0, |s.playbooks|) <==> AllGoThrough(s, fs, locked, engine)
  {
    var res := ItemResults(s, fs, locked, engine);
    forall j | 0 <= j < |s.playbooks|
      ensures res(j).Success?
          <==> !locked && Collate(s, s.playbooks[j], fs).Success? && EngineSucceeds(s.binPath, engine(j))
    {
    }
    if AllSucceed(res, 0, |s.playbooks|) {
      assert AllGoThrough(s, fs, locked, engine);
    }
    if AllGoThrough(s, fs, locked, engine) {
      assert AllSucceed(res, 0, |s.playbooks|);
    }
  }
}
