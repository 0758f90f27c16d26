/** The files of /run/rbln/validations: their names and the driver record. */
module StatusFiles {

  /** The names that the processes use. A Temp name comes from os.CreateTemp with
      the pattern "driver-ready.*.tmp". */
  datatype Name = CtrReady | CtrTmp | DriverReady | ToolkitReady | Temp(random: string)
  {
    function Path(): string {
      match this
      case CtrReady => ".driver-ctr-ready"
      case CtrTmp => ".driver-ctr-ready.tmp"
      case DriverReady => "driver-ready"
      case ToolkitReady => "toolkit-ready"
      case Temp(r) => "driver-ready." + r + ".tmp"
    }

    /** The shell pattern *-ready skips names that start with a dot. */
    predicate MatchesGlob() {
      var p := Path();
      |p| >= 6 && p[0] != '.' && p[|p| - 6..] == "-ready"
    }

    /** What the pattern in the validator's preStop hook matches. */
    lemma GlobMeaning()
      ensures MatchesGlob() <==> DriverReady? || ToolkitReady?
    {
      var p := Path();
      match this {
        case CtrReady => assert p[0] == '.';
        case CtrTmp => assert p[0] == '.';
        case DriverReady => assert p == "driver" + "-ready";
        case ToolkitReady => assert p == "toolkit" + "-ready";
        case Temp(r) => assert p[|p| - 1] == 'p' && p[|p| - 6..][5] == 'p';
      }
    }
  }

  /** Different names are different files. */
  lemma PathsApart(m: Name, n: Name)
    requires m != n
    ensures m.Path() != n.Path()
  {
    if m.Temp? && n.Temp? {
      var p, q := m.Path(), n.Path();
      assert p[13..|p| - 4] == m.random && q[13..|q| - 4] == n.random;
    } else {
      FirstCharsAndLengths(m);
      FirstCharsAndLengths(n);
    }
  }

  lemma FirstCharsAndLengths(n: Name)
    ensures var p := n.Path();
            match n
            case CtrReady => |p| == 17 && p[0] == '.'
            case CtrTmp => |p| == 21 && p[0] == '.'
            case DriverReady => |p| == 12 && p[0] == 'd'
            case ToolkitReady => |p| == 13 && p[0] == 't'
            case Temp(r) => |p| >= 17 && p[0] == 'd'
  {
  }

  // ---------- the record ----------

  datatype DriverInfo = DriverInfo(isHost: bool, driverRoot: string, hostRoot: string, libraryPath: string)

  const LIBRARY_PATH: string := "/usr/local/lib/rbln"

  /** getDriverInfo with the arguments that runValidation passes. */
  function GetDriverInfo(host: bool): DriverInfo {
    if host then DriverInfo(true, "/", "/host", LIBRARY_PATH)
    else DriverInfo(false, "/run/rbln/driver", "/host", LIBRARY_PATH)
  }

  const HOST_VAR: string := "IS_HOST_DRIVER="
  const HOST_ROOT_VAR: string := "RBLN_CTK_DAEMON_HOST_ROOT="
  const DRIVER_ROOT_VAR: string := "RBLN_CTK_DAEMON_DRIVER_ROOT="
  const LIBRARY_VAR: string := "RBLN_CTK_DAEMON_CONTAINER_LIBRARY_PATH="

  function RecordLines(info: DriverInfo): seq<string> {
    [ HOST_VAR + (if info.isHost then "true" else "false"),
      HOST_ROOT_VAR + info.hostRoot,
      DRIVER_ROOT_VAR + info.driverRoot,
      LIBRARY_VAR + info.libraryPath ]
  }

  function Unlines(lines: seq<string>): string {
    if lines == [] then "" else lines[0] + "\n" + Unlines(lines[1..])
  }

  /** What createStatusFile writes. */
  function Record(host: bool): string { Unlines(RecordLines(GetDriverInfo(host))) }

  /** The complete lines of a text, as the shell that sources it reads them. */
  function Lines(text: string): seq<string> {
    SplitLine(text, 0)
  }

  function SplitLine(text: string, i: nat): seq<string>
    requires i <= |text|
    decreases |text|, |text| - i
  {
    if i == |text| then []
    else if text[i] == '\n' then [text[..i]] + SplitLine(text[i + 1..], 0)
    else SplitLine(text, i + 1)
  }

  lemma {:induction false} SplitFirst(line: string, rest: string, i: nat)
    requires '\n' !in line && i <= |line|
    ensures SplitLine(line + "\n" + rest, i) == [line] + Lines(rest)
    decreases |line| - i
  {
    var text := line + "\n" + rest;
    if i == |line| {
      assert text[i] == '\n' && text[..i] == line && text[i + 1..] == rest;
    } else {
      assert text[i] == line[i];
      SplitFirst(line, rest, i + 1);
    }
  }

  lemma {:induction false} LinesOfUnlines(lines: seq<string>)
    requires forall l :: l in lines ==> '\n' !in l
    ensures Lines(Unlines(lines)) == lines
  {
    if lines != [] {
      LinesOfUnlines(lines[1..]);
      SplitFirst(lines[0], Unlines(lines[1..]), 0);
    }
  }

  predicate OneLine(s: string) { '\n' !in s }

  lemma OneLineJoins(a: string, b: string)
    requires OneLine(a) && OneLine(b)
    ensures OneLine(a + b)
  {
  }

  lemma VarsAreOneLine()
    ensures OneLine(HOST_VAR) && OneLine(HOST_ROOT_VAR) && OneLine(DRIVER_ROOT_VAR)
  {
  }

  lemma LibraryVarIsOneLine()
    ensures OneLine(LIBRARY_VAR)
  {
  }

  lemma ValuesAreOneLine(host: bool)
    ensures var info := GetDriverInfo(host);
            OneLine(info.driverRoot) && OneLine(info.hostRoot) && OneLine(info.libraryPath)
  {
  }

  lemma NoNewlines(host: bool)
    ensures forall l :: l in RecordLines(GetDriverInfo(host)) ==> OneLine(l)
  {
    var info := GetDriverInfo(host);
    VarsAreOneLine();
    LibraryVarIsOneLine();
    ValuesAreOneLine(host);
    OneLineJoins(HOST_VAR, if info.isHost then "true" else "false");
    OneLineJoins(HOST_ROOT_VAR, info.hostRoot);
    OneLineJoins(DRIVER_ROOT_VAR, info.driverRoot);
    OneLineJoins(LIBRARY_VAR, info.libraryPath);
  }

  /** A published record reads back as its four lines; its driver root is "/"
      exactly when it says the driver is the host's. */
  lemma RecordReadsBack(host: bool)
    ensures Lines(Record(host)) == RecordLines(GetDriverInfo(host))
    ensures Lines(Record(host)) ==
            [ "IS_HOST_DRIVER=" + if host then "true" else "false",
              "RBLN_CTK_DAEMON_HOST_ROOT=" + "/host",
              "RBLN_CTK_DAEMON_DRIVER_ROOT=" + if host then "/" else "/run/rbln/driver",
              "RBLN_CTK_DAEMON_CONTAINER_LIBRARY_PATH=" + "/usr/local/lib/rbln" ]
  {
    var info := GetDriverInfo(host);
    NoNewlines(host);
    LinesOfUnlines(RecordLines(info));
  }
}
