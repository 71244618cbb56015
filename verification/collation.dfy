/** Variable collation: reading vars files through a file-system oracle and
    merging them with the explicit variables under last-write-wins. */
module Collation {
  import opened Results
  import opened Errors
  import opened Variables
  import opened Config

  /** What `yaml.safe_load` makes of an existing file. */
  datatype FileContent = Parsed(vars: Vars) | Malformed

  /** The file system as seen by `open` + `yaml.safe_load`: a path that is not
      a key does not exist. */
  type Files = map<string, FileContent>

  /** `_parse_vars_file`: the parsed dictionary, or the configuration error
      naming the path. */
  function ParseVarsFile(fs: Files, path: string): (r: Result<Vars, Error>)
    ensures r.Success? <==> path in fs && fs[path].Parsed?
    ensures r.Success? ==> r.value == fs[path].vars
    ensures r.Failure? ==> r.error.IsConfigurationError() && r.error.path == path
    ensures r.Failure? ==> (r.error.FileNotFound? <==> path !in fs)
    ensures r.Failure? ==> r.error.Message() == (if path !in fs then "File not found: " else "YAML error in file: ") + path
  {
    if path !in fs then Failure(FileNotFound(path))
    else match fs[path]
      case Parsed(v) => Success(v)
      case Malformed => Failure(YamlError(path))
  }

  /** Path `i` is the first one that does not parse. */
  predicate FirstBadFile(fs: Files, paths: seq<string>, i: int) {
    && 0 <= i < |paths|
    && ParseVarsFile(fs, paths[i]).Failure?
    && forall j :: 0 <= j < i ==> ParseVarsFile(fs, paths[j]).Success?
  }

  /** Reads every file in order, stopping at the first that fails. This is the
      reference against which the update loop is stated. */
  function ParseAll(fs: Files, paths: seq<string>): (r: Result<seq<Vars>, Error>)
    ensures r.Success? <==> forall i :: 0 <= i < |paths| ==> ParseVarsFile(fs, paths[i]).Success?
    ensures r.Success? ==> |r.value| == |paths|
    ensures r.Success? ==> forall i :: 0 <= i < |paths| ==> r.value[i] == fs[paths[i]].vars
    ensures r.Failure? ==> r.error.IsConfigurationError()
    decreases |paths|
  {
    if paths == [] then Success([])
    else match ParseVarsFile(fs, paths[0])
      case Failure(e) => Failure(e)
      case Success(v) =>
        match ParseAll(fs, paths[1..])
        case Failure(e) => Failure(e)
        case Success(vs) =>
          assert forall i :: 1 <= i < |paths| ==> paths[i] == paths[1..][i - 1];
          Success([v] + vs)
  }

  /** A failed read reports the first file that does not parse. */
  lemma {:induction false} ParseAllReportsFirstBadFile(fs: Files, paths: seq<string>)
    requires ParseAll(fs, paths).Failure?
    ensures exists i :: FirstBadFile(fs, paths, i) && ParseAll(fs, paths).error == ParseVarsFile(fs, paths[i]).error
    decreases |paths|
  {
    if ParseVarsFile(fs, paths[0]).Failure? {
      assert FirstBadFile(fs, paths, 0);
    } else {
      ParseAllReportsFirstBadFile(fs, paths[1..]);
      var i :| FirstBadFile(fs, paths[1..], i) && ParseAll(fs, paths[1..]).error == ParseVarsFile(fs, paths[1..][i]).error;
      assert FirstBadFile(fs, paths, i + 1);
    }
  }

  /** The loop `for path in files: extra_vars.update(_parse_vars_file(path))`:
      parse one file, update, move on; the first failing file aborts. */
  function UpdateFromFiles(fs: Files, acc: Vars, paths: seq<string>): (r: Result<Vars, Error>)
    ensures ParseAll(fs, paths).Success? ==> r == Success(UpdateAll(acc, ParseAll(fs, paths).value))
    ensures ParseAll(fs, paths).Failure? ==> r == Failure(ParseAll(fs, paths).error)
    decreases |paths|
  {
    if paths == [] then Success(acc)
    else match ParseVarsFile(fs, paths[0])
      case Failure(e) => Failure(e)
      case Success(v) => UpdateFromFiles(fs, acc + v, paths[1..])
  }

  /** The files a collation reads: the global ones, then the playbook's own. */
  function VarsFiles(s: Settings, pb: PlaybookConfig): seq<string> {
    s.globalVarsFiles + pb.extraVarFiles
  }

  /** The merge sources in precedence order, lowest first: global vars, the
      playbook's vars, then each file's contents in reading order. */
  function Sources(s: Settings, pb: PlaybookConfig, fileVars: seq<Vars>): seq<Vars> {
    [s.globalVars, pb.extraVars] + fileVars
  }

  /** `_collate_playbook_confg`: a fresh config with the same playbook paths,
      no vars files, and every variable source merged. */
  function Collate(s: Settings, pb: PlaybookConfig, fs: Files): (r: Result<PlaybookConfig, Error>)
    ensures r.Success? <==> ParseAll(fs, VarsFiles(s, pb)).Success?
    ensures r.Failure? ==> r.error == ParseAll(fs, VarsFiles(s, pb)).error
    ensures r.Failure? ==> r.error.IsConfigurationError()
    ensures r.Success? ==> r.value.playbookPaths == pb.playbookPaths && r.value.extraVarFiles == []
  {
    var explicit := map[] + s.globalVars + pb.extraVars;
    match UpdateFromFiles(fs, explicit, VarsFiles(s, pb))
    case Failure(e) => Failure(e)
    case Success(merged) => Success(PlaybookConfig(pb.playbookPaths, [], merged))
  }

  /** Collation, if `run` is asked for it, goes through. */
  predicate Collates(s: Settings, pb: PlaybookConfig, collate: bool, fs: Files) {
    !collate || Collate(s, pb, fs).Success?
  }

  /** The collated vars are the merge of the global vars, the playbook's vars
      and every vars file's contents, in that order. */
  lemma CollateMerges(s: Settings, pb: PlaybookConfig, fs: Files)
    requires Collate(s, pb, fs).Success?
    ensures Collate(s, pb, fs).value.extraVars == Merge(Sources(s, pb, ParseAll(fs, VarsFiles(s, pb)).value))
  {
    var explicit := map[] + s.globalVars + pb.extraVars;
    var fileVars := ParseAll(fs, VarsFiles(s, pb)).value;
    var srcs := Sources(s, pb, fileVars);
    assert srcs[0] == s.globalVars && srcs[1..][0] == pb.extraVars && srcs[1..][1..] == fileVars;
    assert Merge(srcs) == UpdateAll(map[] + s.globalVars, srcs[1..]);
    assert UpdateAll(map[] + s.globalVars, srcs[1..]) == UpdateAll(explicit, fileVars);
  }

  /** Collation keeps exactly the keys of its sources, and each key's value
      comes from the last source holding it: files override explicit vars, and
      the playbook's files override the global files. */
  lemma CollateLastWins(s: Settings, pb: PlaybookConfig, fs: Files)
    requires Collate(s, pb, fs).Success?
    ensures var srcs := Sources(s, pb, ParseAll(fs, VarsFiles(s, pb)).value);
      && Collate(s, pb, fs).value.extraVars.Keys == AllKeys(srcs)
      && forall k, i :: LastHolder(srcs, k, i) ==> Collate(s, pb, fs).value.extraVars[k] == srcs[i][k]
  {
    CollateMerges(s, pb, fs);
    MergeSpec(Sources(s, pb, ParseAll(fs, VarsFiles(s, pb)).value));
  }

  /** The collated key set is the union of the global vars, the playbook's
      vars and every file's keys. */
  lemma CollateKeys(s: Settings, pb: PlaybookConfig, fs: Files)
    requires Collate(s, pb, fs).Success?
    ensures Collate(s, pb, fs).value.extraVars.Keys
         == s.globalVars.Keys + pb.extraVars.Keys + AllKeys(ParseAll(fs, VarsFiles(s, pb)).value)
  {
    var fileVars := ParseAll(fs, VarsFiles(s, pb)).value;
    var srcs := Sources(s, pb, fileVars);
    CollateLastWins(s, pb, fs);
    AllKeysCons(srcs);
    AllKeysCons(srcs[1..]);
    assert srcs[1..][1..] == fileVars;
  }

  /** A key set by any vars file beats the same key given explicitly, whether
      globally or on the playbook. */
  lemma FilesOverrideExplicitVars(s: Settings, pb: PlaybookConfig, fs: Files, k: string, f: int)
    requires Collate(s, pb, fs).Success?
    requires 0 <= f < |VarsFiles(s, pb)|
    requires k in fs[VarsFiles(s, pb)[f]].vars
    requires forall g :: f < g < |VarsFiles(s, pb)| ==> k !in fs[VarsFiles(s, pb)[g]].vars
    ensures k in Collate(s, pb, fs).value.extraVars
    ensures Collate(s, pb, fs).value.extraVars[k] == fs[VarsFiles(s, pb)[f]].vars[k]
  {
    var fileVars := ParseAll(fs, VarsFiles(s, pb)).value;
    var srcs := Sources(s, pb, fileVars);
    assert srcs[f + 2] == fileVars[f];
    assert LastHolder(srcs, k, f + 2);
    CollateLastWins(s, pb, fs);
  }

  /** Collating the batch's playbooks from `i` on, in order, stopping at the
      first configuration error: what a `run_all` that checks every
      configuration before running anything has to do first. */
  function CollateFrom(s: Settings, fs: Files, i: nat): (r: Result<seq<PlaybookConfig>, Error>)
    requires i <= |s.playbooks|
    ensures r.Success? <==> forall j | i <= j < |s.playbooks| :: Collate(s, s.playbooks[j], fs).Success?
    ensures r.Success? ==> |r.value| == |s.playbooks| - i
    decreases |s.playbooks| - i
  {
    if i == |s.playbooks| then Success([])
    else
      match Collate(s, s.playbooks[i], fs)
      case Failure(e) => Failure(e)
      case Success(cfg) =>
        match CollateFrom(s, fs, i + 1)
        case Failure(e) => Failure(e)
        case Success(rest) => Success([cfg] + rest)
  }

  /** Collating the batch yields each playbook's own collated config, in
      playbook order. */
  lemma {:induction false} CollateFromValues(s: Settings, fs: Files, i: nat)
    requires i <= |s.playbooks|
    requires CollateFrom(s, fs, i).Success?
    ensures forall j | i <= j < |s.playbooks| :: Collate(s, s.playbooks[j], fs) == Success(CollateFrom(s, fs, i).value[j - i])
    decreases |s.playbooks| - i
  {
    if i < |s.playbooks| {
      var all := CollateFrom(s, fs, i).value;
      CollateFromValues(s, fs, i + 1);
      var rest := CollateFrom(s, fs, i + 1).value;
      assert all == [Collate(s, s.playbooks[i], fs).value] + rest;
      forall j | i <= j < |s.playbooks|
        ensures Collate(s, s.playbooks[j], fs) == Success(all[j - i])
      {
        if j > i {
          assert all[j - i] == rest[j - (i + 1)];
        }
      }
    }
  }

  /** Playbook `k` is the first from `i` on whose configuration does not collate. */
  predicate FirstUncollatable(s: Settings, fs: Files, i: nat, k: nat) {
    && i <= k < |s.playbooks|
    && (forall j | i <= j < k :: Collate(s, s.playbooks[j], fs).Success?)
    && Collate(s, s.playbooks[k], fs).Failure?
  }

  /** Collating the batch reports the first playbook that does not collate. */
  lemma {:induction false} CollateFromReportsFirst(s: Settings, fs: Files, i: nat, k: nat)
    requires FirstUncollatable(s, fs, i, k)
    ensures CollateFrom(s, fs, i) == Failure(Collate(s, s.playbooks[k], fs).error)
    decreases k - i
  {
    if i < k {
      assert Collate(s, s.playbooks[i], fs).Success?;
      CollateFromReportsFirst(s, fs, i + 1, k);
    }
  }
}
