/**
 * The exceptions the adapters raise (containers/base.py): a `ContainerError` carries a message,
 * a machine-readable code and a details dictionary, and each subclass fixes its code and the
 * shape of its details.
 */
module ContainerErrors {
  import opened Wrappers
  import opened Strings

  /** A value in a details dictionary. `Missing` is Python's `None`. */
  datatype Detail =
    | Text(text: string)
    | Number(number: int)
    | Texts(items: seq<string>)
    | PortMap(ports: map<int, int>)
    | Seconds(seconds: real)
    | Missing

  /** Which class of `ContainerError` was raised. */
  datatype ErrorKind = Generic | NotFound | NotRunning | ExecFailed | Security | Unsupported

  datatype ContainerError = ContainerError(
    kind: ErrorKind,
    message: string,
    code: string,
    details: map<string, Detail>,
    /** The remediation steps of a security error, empty for every other kind. */
    instructions: seq<string>)

  /** The code each subclass fixes; the base class takes its code as an argument. */
  function CodeOf(kind: ErrorKind): Option<string> {
    match kind
    case Generic => None
    case NotFound => Some("CONTAINER_NOT_FOUND")
    case NotRunning => Some("CONTAINER_NOT_RUNNING")
    case ExecFailed => Some("CONTAINER_EXEC_ERROR")
    case Security => Some("CONTAINER_SECURITY_ERROR")
    case Unsupported => Some("UNSUPPORTED_RUNTIME")
  }

  /** The default code of the base class. */
  const DefaultCode := "CONTAINER_ERROR"

  /** A code identifies the subclass that raised the error. */
  lemma CodesIdentifyKind(a: ErrorKind, b: ErrorKind)
    requires CodeOf(a).Some? && CodeOf(a) == CodeOf(b)
    ensures a == b
    ensures CodeOf(a).value != DefaultCode
  {
  }

  /** `ContainerError(message, details=details)`: the default code. */
  function GenericError(message: string, details: map<string, Detail>): (e: ContainerError)
    ensures e.kind == Generic && e.code == DefaultCode
    ensures e.message == message && e.details == details && e.instructions == []
  {
    ContainerError(Generic, message, DefaultCode, details, [])
  }

  /** `ContainerError(message, code=code, details=details)`. */
  function ErrorWithCode(message: string, code: string, details: map<string, Detail>): (e: ContainerError)
    ensures e.kind == Generic && e.code == code
    ensures e.message == message && e.details == details && e.instructions == []
  {
    ContainerError(Generic, message, code, details, [])
  }

  /** `ContainerNotFoundError(container, runtime)`. */
  function NotFoundError(container: string, runtime: string): (e: ContainerError)
    ensures e.kind == NotFound && Some(e.code) == CodeOf(NotFound)
    ensures e.details.Keys == {"container", "runtime"}
    ensures e.details["container"] == Text(container) && e.details["runtime"] == Text(runtime)
    ensures "Container '" <= e.message
  {
    ContainerError(NotFound, "Container '" + container + "' not found", "CONTAINER_NOT_FOUND",
      map["container" := Text(container), "runtime" := Text(runtime)], [])
  }

  /** `ContainerNotRunningError(container, state)`. */
  function NotRunningError(container: string, state: string): (e: ContainerError)
    ensures e.kind == NotRunning && Some(e.code) == CodeOf(NotRunning)
    ensures e.details.Keys == {"container", "state"}
    ensures e.details["container"] == Text(container) && e.details["state"] == Text(state)
  {
    ContainerError(NotRunning, "Container '" + container + "' is not running (state: " + state + ")",
      "CONTAINER_NOT_RUNNING", map["container" := Text(container), "state" := Text(state)], [])
  }

  /** The message of an exec error quotes at most the first 200 characters of stderr. */
  const ExecStderrLimit := 200

  /** `ContainerExecError(command, exit_code, stderr)`. */
  function ExecError(command: string, exitCode: int, stderr: string): (e: ContainerError)
    ensures e.kind == ExecFailed && Some(e.code) == CodeOf(ExecFailed)
    ensures e.details.Keys == {"command", "exit_code", "stderr"}
    ensures e.details["command"] == Text(command) && e.details["exit_code"] == Number(exitCode)
    ensures e.details["stderr"] == Text(stderr)
  {
    ContainerError(ExecFailed,
      "Command failed with exit code " + IntToString(exitCode) + ": " + Take(stderr, ExecStderrLimit),
      "CONTAINER_EXEC_ERROR",
      map["command" := Text(command), "exit_code" := Number(exitCode), "stderr" := Text(stderr)], [])
  }

  /** `ContainerSecurityError(message, instructions)`; `None` and `[]` both store no steps. */
  function SecurityError(message: string, instructions: Option<seq<string>>): (e: ContainerError)
    ensures e.kind == Security && Some(e.code) == CodeOf(Security)
    ensures e.message == message
    ensures e.instructions == (if instructions.Some? then instructions.value else [])
    ensures e.details == map["instructions" := Texts(e.instructions)]
  {
    var steps := if instructions.Some? then instructions.value else [];
    ContainerError(Security, message, "CONTAINER_SECURITY_ERROR", map["instructions" := Texts(steps)], steps)
  }

  /**
   * The error messages name what they are about: the container for the not-found and
   * not-running errors, and its state for the latter.
   */
  lemma ErrorMessagesName(container: string, runtime: string, state: string)
    ensures Contains(NotFoundError(container, runtime).message, container)
    ensures Contains(NotRunningError(container, state).message, container)
    ensures Contains(NotRunningError(container, state).message, state)
  {
    ContainsMiddle("Container '", container, "' not found");
    var m := NotRunningError(container, state).message;
    ContainsMiddle("Container '", container, "' is not running (state: " + state + ")");
    assert m == "Container '" + container + ("' is not running (state: " + state + ")");
    assert m == "Container '" + container + "' is not running (state: " + state + ")";
    assert m == ("Container '" + container + "' is not running (state: ") + state + ")";
    ContainsMiddle("Container '" + container + "' is not running (state: ", state, ")");
  }

  /**
   * The exec error's message names the exit code, quotes the head of stderr (all of it when
   * it is at most 200 characters long), and is not longer than its fixed text, the code and
   * 200 characters; the details keep the whole stderr.
   */
  lemma ExecErrorMessage(command: string, exitCode: int, stderr: string)
    ensures var m := ExecError(command, exitCode, stderr).message;
      && "Command failed with exit code " + IntToString(exitCode) + ": " <= m
      && |m| <= 32 + |IntToString(exitCode)| + ExecStderrLimit
      && m[32 + |IntToString(exitCode)|..] <= stderr
      && (|stderr| <= ExecStderrLimit ==> m[32 + |IntToString(exitCode)|..] == stderr)
  {
    var head := "Command failed with exit code " + IntToString(exitCode) + ": ";
    var m := ExecError(command, exitCode, stderr).message;
    assert |head| == 32 + |IntToString(exitCode)|;
    assert m == head + Take(stderr, ExecStderrLimit);
    assert m[|head|..] == Take(stderr, ExecStderrLimit);
  }

  /** The unit tests: a not-found error and a security error with two steps. */
  lemma ErrorExamples()
    ensures var e := NotFoundError("my-container", "docker");
      && Contains(e.message, "my-container") && e.code == "CONTAINER_NOT_FOUND"
      && e.details["container"] == Text("my-container") && e.details["runtime"] == Text("docker")
    ensures var e := SecurityError("ptrace not permitted", Some(["Add SYS_PTRACE capability", "Run with --privileged"]));
      e.code == "CONTAINER_SECURITY_ERROR" && |e.instructions| == 2
  {
    ErrorMessagesName("my-container", "docker", "");
  }

  /**
   * Everything an operation of the core can raise: a container error, an SSH tunnel error
   * (which is not a container error), or one of Python's own exceptions that the adapters let
   * through.
   */
  datatype Failure =
    | Raised(error: ContainerError)
    | TunnelFailed(message: string, details: map<string, Detail>)
    | ValueError(text: string)
    | TypeError(text: string)
    | IndexError
    | OSError(text: string)
  {
    /** Whether `except ContainerError` catches it. */
    predicate IsContainerError() {
      Raised?
    }
  }
}
