/** Every raise of `AnsibleRunnerException` in the modelled core (collation
    and `run`), one constructor per distinct message. Both copies raise the
    same five there; the newer copy's `events` accessor, which raises a
    sixth, is not part of the model. */
module Errors {

  datatype Error =
    | FileNotFound(path: string)   // a vars file does not exist
    | YamlError(path: string)      // a vars file is not valid YAML
    | AlreadyRunning               // the single-run guard is already held
    | RunFailed                    // the engine (or building its request) raised
    | PlaybookFailed               // the engine finished with a status other than "successful"
  {
    /** The configuration errors, raised while collating vars files. */
    predicate IsConfigurationError() {
      FileNotFound? || YamlError?
    }

    /** The exception's message text. */
    function Message(): string {
      match this
      case FileNotFound(p) => "File not found: " + p
      case YamlError(p) => "YAML error in file: " + p
      case AlreadyRunning => "Ansible runner is already running"
      case RunFailed => "Failed to run ansible"
      case PlaybookFailed => "Ansible playbook fail"
    }
  }
}
