/** The wrapper's configuration records: `PlaybookConfig` and the constructor
    arguments of `AnsibleRunner` that the core reads. */
module Config {
  import opened Results
  import opened Variables

  /** `playbook_paths: str | List[str]`, handed to the engine unchanged. */
  datatype PlaybookPaths = OnePath(path: string) | PathList(paths: seq<string>)

  datatype PlaybookConfig = PlaybookConfig(
    playbookPaths: PlaybookPaths,
    extraVarFiles: seq<string>,
    extraVars: Vars)

  /** The orchestrator's fixed settings. `binPath` is `ansible_bin_path`;
      `None` and `Some("")` both mean "leave the command alone". */
  datatype Settings = Settings(
    playbookRoot: string,
    globalVarsFiles: seq<string>,
    globalVars: Vars,
    playbooks: seq<PlaybookConfig>,
    debug: bool,
    logPrefix: string,
    binPath: Option<string>)
}
