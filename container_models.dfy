/**
 * What the adapters report about containers and processes (containers/models.py): the
 * container state enum, container and process records with the `ps aux` line parser, the
 * result of one command, and a Kubernetes port-forward handle.
 */
module ContainerModels {
  import opened Wrappers
  import opened Strings
  import opened Processes

  datatype ContainerState = Created | Running | Paused | Restarting | Removing | Exited | Dead | Unknown {
    /** The enum's string value. */
    function Value(): string {
      match this
      case Created => "created"
      case Running => "running"
      case Paused => "paused"
      case Restarting => "restarting"
      case Removing => "removing"
      case Exited => "exited"
      case Dead => "dead"
      case Unknown => "unknown"
    }
  }

  /** Distinct states have distinct values. */
  lemma StateValuesDistinct(a: ContainerState, b: ContainerState)
    requires a.Value() == b.Value()
    ensures a == b
  {
  }

  /**
   * A container. The creation time and the raw runtime data are not modelled; `ports` maps a
   * container port to the host port it is published on.
   */
  datatype ContainerInfo = ContainerInfo(
    id: string,
    name: string,
    state: ContainerState,
    image: string,
    ipAddress: Option<string>,
    ports: map<int, int>,
    labels: map<string, string>)
  {
    predicate IsRunning() {
      state == Running
    }
  }

  /** Only the `running` state counts as running; the unit tests' running and exited cases. */
  lemma IsRunningExactlyRunning(info: ContainerInfo)
    ensures info.IsRunning() <==> info.state.Value() == "running"
    ensures info.(state := Exited).IsRunning() == false
    ensures info.(state := Running).IsRunning()
  {
  }

  /** The outcome of one command: its exit code, its output, and whether it timed out. */
  datatype ExecResult = ExecResult(exitCode: int, stdout: string, stderr: string, timedOut: bool) {
    predicate Success() {
      exitCode == 0 && !timedOut
    }
  }

  /** A command succeeds exactly when it exits with 0 without timing out (the unit tests' cases). */
  lemma SuccessExamples(out: string, err: string)
    ensures ExecResult(0, out, err, false).Success()
    ensures !ExecResult(1, out, err, false).Success()
    ensures !ExecResult(0, out, err, true).Success()
    ensures forall r: ExecResult :: r.Success() ==> r.exitCode == 0
  {
  }

  // ---------------------------------------------------------------------------
  // Processes found by `ps aux`
  // ---------------------------------------------------------------------------

  /**
   * A process inside a container. `%CPU` and `%MEM` keep the text of their columns: the model
   * checks that `float()` accepts them but does not compute the floating-point value.
   */
  datatype ProcessInfo = ProcessInfo(
    pid: int,
    name: string,
    cmdline: string,
    user: string,
    cpuPercent: string,
    memoryPercent: string,
    isPython: bool,
    pythonVersion: Option<string>)

  /**
   * The executable name of a command line: the last `/`-segment of its first word, or `""`
   * for an empty command line; `None` stands for the `IndexError` of a command line made of
   * whitespace only.
   */
  function CommandName(cmdline: string): Option<string> {
    if cmdline == "" then Some("")
    else
      var words := Words(cmdline);
      if words == [] then None else Some(LastSegment(words[0]))
  }

  /** Whether a process with this name and command line counts as a Python process. */
  predicate LooksLikePython(name: string, cmdline: string) {
    Contains(Lower(name), "python") || "python" <= cmdline
  }

  /**
   * One line of `ps aux` (`USER PID %CPU %MEM VSZ RSS TTY STAT START TIME COMMAND`), or `None`
   * when it has fewer than eleven fields or a field does not parse.
   */
  function FromPsLine(line: string): Option<ProcessInfo> {
    FromPsFields(SplitMax(line, 10))
  }

  /** The record built from the fields of a `ps aux` line. */
  function FromPsFields(parts: seq<string>): Option<ProcessInfo> {
    if |parts| < 11 then None
    else match ParseInt(parts[1])
      case None => None
      case Some(pid) =>
        if !IsFloatLiteral(parts[2]) || !IsFloatLiteral(parts[3]) then None
        else
          var cmdline := parts[10];
          match CommandName(cmdline)
          case None => None
          case Some(name) =>
            Some(ProcessInfo(pid, name, cmdline, parts[0], parts[2], parts[3],
              LooksLikePython(name, cmdline), None))
  }

  /** The fields of a line that `FromPsLine` accepts. */
  predicate PsFieldsParse(parts: seq<string>) {
    |parts| == 11 && ParseInt(parts[1]).Some? && IsFloatLiteral(parts[2]) && IsFloatLiteral(parts[3])
  }

  /**
   * A line is accepted exactly when it has eleven fields whose PID is an integer and whose
   * `%CPU` and `%MEM` are numbers; the record then holds those fields, the eleventh field
   * (with its inner whitespace) as the command line, and it is a suffix of the line.
   */
  lemma FromPsLineFields(line: string)
    ensures FromPsLine(line).Some? <==> PsFieldsParse(SplitMax(line, 10))
    ensures FromPsLine(line).Some? ==>
      var parts := SplitMax(line, 10);
      var p := FromPsLine(line).value;
      && p.user == parts[0]
      && Some(p.pid) == ParseInt(parts[1])
      && p.cpuPercent == parts[2] && p.memoryPercent == parts[3]
      && p.cmdline == parts[10]
      && p.cmdline != [] && !IsSpace(p.cmdline[0])
      && |p.cmdline| <= |line| && p.cmdline == line[|line| - |p.cmdline|..]
      && p.pythonVersion.None?
  {
    var parts := SplitMax(line, 10);
    SplitMaxFields(line, 10);
    if |parts| == 11 {
      SplitMaxLastIsSuffix(line, 10);
      CommandNameOfWord(parts[10]);
    }
    FromPsFieldsCases(parts);
  }

  /** Eleven fields whose command starts with a word are accepted exactly when the numbers parse. */
  lemma FromPsFieldsCases(parts: seq<string>)
    requires |parts| <= 11
    requires |parts| == 11 ==> CommandName(parts[10]).Some?
    ensures FromPsFields(parts).Some? <==> PsFieldsParse(parts)
    ensures FromPsFields(parts).Some? ==>
      var p := FromPsFields(parts).value;
      && p.user == parts[0]
      && Some(p.pid) == ParseInt(parts[1])
      && p.cpuPercent == parts[2] && p.memoryPercent == parts[3]
      && p.cmdline == parts[10]
      && p.pythonVersion.None?
  {
  }

  /**
   * The name of an accepted process is a `/`-free tail of the first word of its command line,
   * and the process is a Python process exactly when `python` occurs in its lower-cased name
   * or the command line starts with `python`.
   */
  lemma FromPsLineName(line: string)
    requires FromPsLine(line).Some?
    ensures var p := FromPsLine(line).value;
      && Words(p.cmdline) != []
      && p.name == LastSegment(Words(p.cmdline)[0])
      && '/' !in p.name
      && |p.name| <= |Words(p.cmdline)[0]|
      && p.name == Words(p.cmdline)[0][|Words(p.cmdline)[0]| - |p.name|..]
      && (p.isPython <==> Contains(Lower(p.name), "python") || "python" <= p.cmdline)
  {
    FromPsLineFields(line);
    var p := FromPsLine(line).value;
    assert p.name == CommandName(p.cmdline).value;
    assert p.isPython == LooksLikePython(p.name, p.cmdline);
    CommandNameOfWord(p.cmdline);
  }

  /** The name of a command line that starts with a word: the last segment of that word. */
  lemma CommandNameOfWord(cmdline: string)
    requires cmdline != [] && !IsSpace(cmdline[0])
    ensures Words(cmdline) != []
    ensures CommandName(cmdline) == Some(LastSegment(Words(cmdline)[0]))
    ensures var w := Words(cmdline)[0]; var n := LastSegment(w);
      '/' !in n && |n| <= |w| && n == w[|w| - |n|..]
  {
    FirstWordIsPrefix(cmdline);
    LastSegmentIsSuffix(Words(cmdline)[0]);
  }

  /** A line with fewer than eleven fields, such as `invalid`, gives no process. */
  lemma ShortLineRejected(line: string)
    requires |Words(line)| < 11
    ensures FromPsLine(line).None?
  {
    SplitMaxPrefixOfWords(line, 10);
  }

  /** `split(None, m)` makes no more fields than `split()`. */
  lemma {:induction false} SplitMaxPrefixOfWords(s: string, maxsplit: nat)
    ensures |SplitMax(s, maxsplit)| <= |Words(s)|
    decreases |s|
  {
    var t := TrimStart(s);
    if t != [] && maxsplit > 0 {
      var j := WordLen(t);
      TrimStartIsSuffix(s);
      WordLenFacts(t);
      SplitMaxPrefixOfWords(t[j..], maxsplit - 1);
    }
  }

  lemma InvalidLineRejected()
    ensures FromPsLine("invalid").None?
  {
    FirstWordOf("invalid", "");
    assert "invalid" + "" == "invalid";
    assert TrimStart("invalid") == "invalid";
    assert WordLen("invalid") == 7 by {
      WordLenConcat("invalid", "");
    }
    assert "invalid"[7..] == "";
    assert Words("invalid") == ["invalid"];
    ShortLineRejected("invalid");
  }

  /** A line made of `fields` separated by the whitespace runs `gaps`, ending in `last`. */
  function Unsplit(fields: seq<string>, gaps: seq<string>, last: string): string
    requires |gaps| == |fields|
  {
    if fields == [] then last else fields[0] + gaps[0] + Unsplit(fields[1..], gaps[1..], last)
  }

  predicate IsWord(w: string) {
    w != [] && NoSpace(w)
  }

  predicate IsGap(g: string) {
    g != [] && AllSpace(g)
  }

  /**
   * Splitting such a line at its first `|fields|` whitespace runs gives back the fields and
   * the rest of the line, whatever whitespace the rest contains.
   */
  lemma {:induction false} SplitMaxUnsplit(fields: seq<string>, gaps: seq<string>, last: string)
    requires |gaps| == |fields|
    requires forall i :: 0 <= i < |fields| ==> IsWord(fields[i])
    requires forall i :: 0 <= i < |gaps| ==> IsGap(gaps[i])
    requires last != [] && !IsSpace(last[0])
    ensures SplitMax(Unsplit(fields, gaps, last), |fields|) == fields + [last]
  {
    if fields == [] {
      SplitMaxLast(last);
    } else {
      assert IsWord(fields[0]) && IsGap(gaps[0]);
      SplitMaxUnsplit(fields[1..], gaps[1..], last);
      SplitMaxCons(fields[0], gaps[0], Unsplit(fields[1..], gaps[1..], last), |fields| - 1);
      assert fields == [fields[0]] + fields[1..];
    }
  }

  const PsGaps := ["       ", "  ", "  ", " ", " ", " ", "  ", "  ", "  ", " "]

  /** The first ten columns of the unit tests' lines, which differ only in PID and `%MEM`. */
  function PsFields(pid: string, mem: string): seq<string> {
    ["root", pid, "0.0", mem, "12345", "67890", "?", "Ss", "00:00", "0:00"]
  }

  /** The unit tests' `root       1  0.0  0.5 12345 67890 ?  Ss  00:00  0:00 python app.py`. */
  const PythonPsLine := Unsplit(PsFields("1", "0.5"), PsGaps, "python" + " app.py")

  /** The unit tests' `root       2  0.0  0.1 12345 67890 ?  Ss  00:00  0:00 nginx`. */
  const NginxPsLine := Unsplit(PsFields("2", "0.1"), PsGaps, "nginx")

  /** Splitting either line gives back its ten columns and its command. */
  lemma PsLineParts(pid: string, mem: string, command: string)
    requires pid == "1" || pid == "2"
    requires mem == "0.5" || mem == "0.1"
    requires command != [] && !IsSpace(command[0])
    ensures SplitMax(Unsplit(PsFields(pid, mem), PsGaps, command), 10) == PsFields(pid, mem) + [command]
  {
    PsGapsAreGaps();
    PsFieldsAreWords(pid, mem);
    SplitMaxUnsplit(PsFields(pid, mem), PsGaps, command);
  }

  /** The first ten columns of the unit tests' lines are words. */
  lemma PsFieldsAreWords(pid: string, mem: string)
    requires pid == "1" || pid == "2"
    requires mem == "0.5" || mem == "0.1"
    ensures forall i :: 0 <= i < |PsFields(pid, mem)| ==> IsWord(PsFields(pid, mem)[i])
  {
    DigitWords();
    OtherWords();
    assert IsWord(pid) && IsWord(mem);
  }

  lemma DigitWords()
    ensures IsWord("1") && IsWord("2") && IsWord("0.0") && IsWord("0.5") && IsWord("0.1")
    ensures IsWord("12345") && IsWord("67890")
  {
  }

  lemma OtherWords()
    ensures IsWord("root") && IsWord("?") && IsWord("Ss") && IsWord("00:00") && IsWord("0:00")
  {
  }

  lemma PsGapsAreGaps()
    ensures forall i :: 0 <= i < |PsGaps| ==> IsGap(PsGaps[i])
  {
  }

  /** The unit tests' Python line is process 1 of `root`, named `python`, a Python process. */
  lemma PythonPsLineExample()
    ensures var p := FromPsLine(PythonPsLine);
      && p.Some?
      && p.value.pid == 1 && p.value.user == "root" && p.value.isPython
      && p.value.cmdline == "python" + " app.py" && p.value.name == "python"
  {
    PsLineParts("1", "0.5", "python" + " app.py");
    PythonLineAccepted(PythonPsLine);
  }

  lemma PythonLineAccepted(line: string)
    requires SplitMax(line, 10) == PsFields("1", "0.5") + ["python" + " app.py"]
    ensures FromPsLine(line)
      == Some(ProcessInfo(1, "python", "python" + " app.py", "root", "0.0", "0.5", true, None))
  {
    var parts := SplitMax(line, 10);
    assert parts[0] == "root" && parts[1] == "1" && parts[2] == "0.0" && parts[3] == "0.5";
    PidField(parts[1], 1);
    PercentFields(parts[2], parts[3]);
    PythonCommand(parts[10]);
    AcceptedLine(line, 1, "python");
  }

  /** The unit tests' `nginx` line is process 2, and not a Python process. */
  lemma NginxPsLineExample()
    ensures var p := FromPsLine(NginxPsLine);
      && p.Some?
      && p.value.pid == 2 && !p.value.isPython && p.value.name == "nginx"
  {
    PsLineParts("2", "0.1", "nginx");
    NginxLineAccepted(NginxPsLine);
  }

  lemma NginxLineAccepted(line: string)
    requires SplitMax(line, 10) == PsFields("2", "0.1") + ["nginx"]
    ensures FromPsLine(line) == Some(ProcessInfo(2, "nginx", "nginx", "root", "0.0", "0.1", false, None))
  {
    var parts := SplitMax(line, 10);
    assert parts[0] == "root" && parts[1] == "2" && parts[2] == "0.0" && parts[3] == "0.1";
    PidField(parts[1], 2);
    PercentFields(parts[2], parts[3]);
    NginxCommand(parts[10]);
    AcceptedLine(line, 2, "nginx");
  }

  /** What `FromPsLine` builds from fields that parse. */
  lemma AcceptedLine(line: string, pid: int, name: string)
    requires |SplitMax(line, 10)| == 11
    requires ParseInt(SplitMax(line, 10)[1]) == Some(pid)
    requires IsFloatLiteral(SplitMax(line, 10)[2]) && IsFloatLiteral(SplitMax(line, 10)[3])
    requires CommandName(SplitMax(line, 10)[10]) == Some(name)
    ensures var parts := SplitMax(line, 10);
      FromPsLine(line) == Some(ProcessInfo(pid, name, parts[10], parts[0], parts[2], parts[3],
        LooksLikePython(name, parts[10]), None))
  {
  }

  lemma PidField(x: string, pid: int)
    requires pid == 1 || pid == 2
    requires x == if pid == 1 then "1" else "2"
    ensures ParseInt(x) == Some(pid)
  {
    ParseDigits();
  }

  lemma PercentFields(x: string, y: string)
    requires x == "0.0" && (y == "0.5" || y == "0.1")
    ensures IsFloatLiteral(x) && IsFloatLiteral(y)
  {
    FloatExample();
  }

  lemma PythonCommand(x: string)
    requires x == "python" + " app.py"
    ensures CommandName(x) == Some("python") && LooksLikePython("python", x)
  {
    assert NoSpace("python") && IsSpace(" app.py"[0]) && '/' !in "python";
    CommandOfWord("python", " app.py");
    PrefixOfConcat("python", " app.py");
  }

  lemma NginxCommand(x: string)
    requires x == "nginx"
    ensures CommandName(x) == Some("nginx") && !LooksLikePython("nginx", x)
  {
    assert NoSpace("nginx") && '/' !in "nginx";
    assert "nginx" + "" == "nginx";
    CommandOfWord("nginx", "");
    assert Lower("nginx") == "nginx";
    NotContainsShort("nginx", "python");
  }

  /** The name of a command line made of one `/`-free word and then whitespace is that word. */
  lemma CommandOfWord(w: string, rest: string)
    requires w != [] && NoSpace(w) && '/' !in w
    requires rest == [] || IsSpace(rest[0])
    ensures CommandName(w + rest) == Some(w)
  {
    FirstWordOf(w, rest);
    SplitOnFree(w, '/');
  }

  lemma PrefixOfConcat(a: string, b: string)
    ensures a <= a + b
  {
    assert (a + b)[..|a|] == a;
  }

  lemma NotContainsShort(s: string, sub: string)
    requires |s| < |sub|
    ensures !Contains(s, sub)
  {
    if Contains(s, sub) {
      ContainsLength(s, sub);
    }
  }

  /** `int()` of a string of digits. */
  lemma ParseDigits()
    ensures ParseInt("1") == Some(1) && ParseInt("2") == Some(2)
  {
    IntToStringRoundTrip(1);
    IntToStringRoundTrip(2);
  }

  /** `float()` accepts `0.0`, `0.5` and `0.1`. */
  lemma FloatExample()
    ensures IsFloatLiteral("0.0") && IsFloatLiteral("0.5") && IsFloatLiteral("0.1")
  {
    SimpleDecimal('0');
    SimpleDecimal('5');
    SimpleDecimal('1');
  }

  lemma SimpleDecimal(d: char)
    requires '0' <= d <= '9'
    ensures IsFloatLiteral(['0', '.', d])
  {
    var s := ['0', '.', d];
    assert Strip(s) == s;
    assert IndexOfExponent(s) == 3;
    assert s[..3] == s;
    assert IndexOf(s, '.') == 1;
    assert s[..1] == "0" && s[2..] == [d];
    assert IsDigitPart("0") && IsDigitPart([d]);
  }

  // ---------------------------------------------------------------------------
  // Port forwards
  // ---------------------------------------------------------------------------

  /** A running `kubectl port-forward`: the local port, the pod port, and its process. */
  class PortForward {
    const localPort: int
    const remotePort: int
    const process: Process?
    var closed: bool

    constructor (localPort: int, remotePort: int, process: Process?)
      ensures this.localPort == localPort && this.remotePort == remotePort
      ensures this.process == process && !closed
    {
      this.localPort := localPort;
      this.remotePort := remotePort;
      this.process := process;
      closed := false;
    }

    /** Not closed, has a process, and the process is still running. */
    predicate IsActive()
      reads this, process
    {
      !closed && process != null && process.Running()
    }

    /**
     * Marks the forward closed, then stops its process (SIGTERM, SIGKILL after five
     * seconds); a second call changes nothing.
     */
    method Close()
      modifies this, process
      ensures closed && !IsActive()
      ensures old(closed) ==> process == null || unchanged(process)
      ensures !old(closed) && process != null ==>
        process.StoppedFrom(old(process.returnCode), old(process.signals))
    {
      if closed {
        return;
      }
      closed := true;
      if process != null {
        process.Stop();
      }
    }
  }
}
