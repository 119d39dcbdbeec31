/** `DependencyChecker`: locates the go-enc2ly and python3 executables and checks that the
    python-ly library answers `python3 -m ly --version`.

    The file system's executability test is a predicate `isExecutable` on paths, the home
    directory is a parameter, and starting a process is answered by a `Shell`. Each method
    also returns the processes it started, in order. */
module DependencyChecker {
  import opened Wrappers
  import opened Processes
  import Strings

  /** Starting an executable with arguments: it either cannot be started or runs to completion. */
  type Shell = Invocation -> Spawn

  /** What the checker found. */
  datatype DependencyStatus = DependencyStatus(
    goEnc2lyPath: Option<string>,
    python3Path: Option<string>,
    pythonLyInstalled: bool)
  {
    predicate GoEnc2lyAvailable() {
      goEnc2lyPath.Some?
    }

    predicate PythonLyAvailable() {
      python3Path.Some? && pythonLyInstalled
    }

    predicate AllInstalled() {
      GoEnc2lyAvailable() && PythonLyAvailable()
    }
  }

  /** Both tools are ready exactly when both executables were located and python-ly answered. */
  lemma AllInstalledIff(s: DependencyStatus)
    ensures s.AllInstalled() <==> s.goEnc2lyPath.Some? && s.python3Path.Some? && s.pythonLyInstalled
  {
  }

  // ---------------------------------------------------------------------------------------------
  // Locating an executable

  /** The places probed for `name`, in the order they are tried. */
  function CommonPaths(home: string, name: string): seq<string> {
    [ home + "/go/bin/" + name,
      "/usr/local/bin/" + name,
      "/opt/homebrew/bin/" + name,
      "/usr/local/go/bin/" + name,
      home + "/.local/bin/" + name,
      "/usr/bin/" + name ]
  }

  /** The login shell asked where `name` is, the fallback of the lookup. */
  function WhichInvocation(name: string): Invocation {
    Invocation("/bin/zsh", ["-l", "-c", "which " + name])
  }

  /** The index of the first path that passes the test, or None when none does. */
  function FirstExecutable(paths: seq<string>, isExecutable: string -> bool): (r: Option<nat>)
    ensures r.Some? ==> r.value < |paths| && isExecutable(paths[r.value])
                        && forall k :: 0 <= k < r.value ==> !isExecutable(paths[k])
    ensures r.None? <==> forall k :: 0 <= k < |paths| ==> !isExecutable(paths[k])
  {
    if |paths| == 0 then None
    else if isExecutable(paths[0]) then Some(0)
    else match FirstExecutable(paths[1..], isExecutable)
      case None => None
      case Some(k) => Some(k + 1)
  }

  /** What `whichExecutable` reads from the shell's answer: the standard output trimmed of white
      space and newlines, when the shell exited with 0 and that text is not empty.
      This is the reference definition; the method `WhichExecutable` performs it step by step. */
  function WhichAnswer(s: Spawn): Option<string> {
    if ExitedWithZero(s) && Strings.Trim(s.result.stdout) != "" then Some(Strings.Trim(s.result.stdout))
    else None
  }

  /** The shell's answer names a path exactly when it exited with 0 and printed something other
      than white space; that path is the printed text without its surrounding white space. */
  lemma WhichAnswerIff(s: Spawn)
    ensures WhichAnswer(s).Some? <==>
              ExitedWithZero(s) && exists k :: 0 <= k < |s.result.stdout| && !Strings.IsWhitespace(s.result.stdout[k])
    ensures WhichAnswer(s).Some? ==>
              var p, out := WhichAnswer(s).value, s.result.stdout;
              var i := Strings.LeadingWhitespace(out);
              && p != [] && p == out[i..i + |p|]
              && !Strings.IsWhitespace(p[0]) && !Strings.IsWhitespace(p[|p| - 1])
              && (forall k :: 0 <= k < i ==> Strings.IsWhitespace(out[k]))
              && (forall k :: i + |p| <= k < |out| ==> Strings.IsWhitespace(out[k]))
  {
    if s.Exited? {
      var out := s.result.stdout;
      Strings.TrimEmptyIff(out);
      if ExitedWithZero(s) && Strings.Trim(out) != "" {
        assert WhichAnswer(s) == Some(Strings.Trim(out));
      } else {
        assert WhichAnswer(s) == None;
      }
    }
  }

  /** `findExecutable`: the first common path that is executable; when there is none, what `which` says.
      This is the reference definition; the method `FindExecutable` performs it with its loop. */
  function Located(name: string, home: string, isExecutable: string -> bool, shell: Shell): Option<string> {
    var paths := CommonPaths(home, name);
    match FirstExecutable(paths, isExecutable)
      case Some(k) => Some(paths[k])
      case None => WhichAnswer(shell(WhichInvocation(name)))
  }

  /** An executable common path wins over every later one and over the shell. */
  lemma LocatedPrefersCommonPaths(name: string, home: string, isExecutable: string -> bool, shell: Shell, k: nat)
    requires k < |CommonPaths(home, name)| && isExecutable(CommonPaths(home, name)[k])
    ensures var p := Located(name, home, isExecutable, shell);
            && p.Some? && isExecutable(p.value)
            && exists j :: 0 <= j <= k && p.value == CommonPaths(home, name)[j]
                           && forall i :: 0 <= i < j ==> !isExecutable(CommonPaths(home, name)[i])
  {
    var paths := CommonPaths(home, name);
    var f := FirstExecutable(paths, isExecutable);
    assert f.Some?;
    var j := f.value;
    assert j <= k;
    assert Located(name, home, isExecutable, shell) == Some(paths[j]);
  }

  /** When no common path is executable, the result is exactly the shell's answer. */
  lemma LocatedFallsBackToWhich(name: string, home: string, isExecutable: string -> bool, shell: Shell)
    requires forall k :: 0 <= k < |CommonPaths(home, name)| ==> !isExecutable(CommonPaths(home, name)[k])
    ensures Located(name, home, isExecutable, shell) == WhichAnswer(shell(WhichInvocation(name)))
  {
    assert FirstExecutable(CommonPaths(home, name), isExecutable).None?;
  }

  /** `whichExecutable`: runs `/bin/zsh -l -c "which <name>"` and reads its answer. */
  method WhichExecutable(name: string, shell: Shell) returns (path: Option<string>, calls: seq<Invocation>)
    ensures path == WhichAnswer(shell(WhichInvocation(name)))
    ensures calls == [WhichInvocation(name)]
  {
    var invocation := WhichInvocation(name);
    calls := [invocation];
    var spawn := shell(invocation);
    if spawn.Exited? && spawn.result.exitCode == 0 {
      var trimmed := Strings.Trim(spawn.result.stdout);
      if trimmed != "" {
        return Some(trimmed), calls;
      }
    }
    path := None;
  }

  /** The processes `findExecutable` starts: the shell, and only when no common path matched. */
  function LookupCalls(name: string, home: string, isExecutable: string -> bool): seq<Invocation> {
    if FirstExecutable(CommonPaths(home, name), isExecutable).Some? then [] else [WhichInvocation(name)]
  }

  /** `findExecutable`: probes the common paths in order, returns at the first executable one, and
      asks the shell only when none matched. */
  method FindExecutable(name: string, home: string, isExecutable: string -> bool, shell: Shell)
    returns (path: Option<string>, calls: seq<Invocation>)
    ensures path == Located(name, home, isExecutable, shell)
    ensures calls == LookupCalls(name, home, isExecutable)
  {
    var paths := CommonPaths(home, name);
    for i := 0 to |paths|
      invariant forall k :: 0 <= k < i ==> !isExecutable(paths[k])
    {
      if isExecutable(paths[i]) {
        return Some(paths[i]), [];
      }
    }
    path, calls := WhichExecutable(name, shell);
  }

  // ---------------------------------------------------------------------------------------------
  // The python-ly check and the whole check

  /** `python3 -m ly --version`. */
  function VersionInvocation(python3: string): Invocation {
    Invocation(python3, ["-m", "ly", "--version"])
  }

  /** `checkPythonLy`: python3 was located, and the version query started and exited with 0.
      This is the reference definition; the method `CheckPythonLy` performs it step by step. */
  function LyAnswers(python3Path: Option<string>, shell: Shell): bool {
    python3Path.Some? && ExitedWithZero(shell(VersionInvocation(python3Path.value)))
  }

  /** The processes `checkPythonLy` starts: the version query, and only for a located python3. */
  function VersionCalls(python3Path: Option<string>): seq<Invocation> {
    if python3Path.None? then [] else [VersionInvocation(python3Path.value)]
  }

  /** `checkPythonLy`: false without a python3 path (no process is started); otherwise whether
      `python3 -m ly --version` started and exited with 0. A process that cannot be started gives false. */
  method CheckPythonLy(python3Path: Option<string>, shell: Shell) returns (installed: bool, calls: seq<Invocation>)
    ensures installed == LyAnswers(python3Path, shell)
    ensures calls == VersionCalls(python3Path)
  {
    if python3Path.None? {
      return false, [];
    }
    var invocation := VersionInvocation(python3Path.value);
    calls := [invocation];
    var spawn := shell(invocation);
    if spawn.SpawnFailed? {
      return false, calls;
    }
    installed := spawn.result.exitCode == 0;
  }

  /** The version query answers only for a located python3, and a failed start never counts as installed. */
  lemma LyAnswersIff(python3Path: Option<string>, shell: Shell)
    ensures LyAnswers(python3Path, shell) <==>
              && python3Path.Some?
              && var s := shell(VersionInvocation(python3Path.value)); s.Exited? && s.result.exitCode == 0
    ensures python3Path.Some? && shell(VersionInvocation(python3Path.value)).SpawnFailed? ==> !LyAnswers(python3Path, shell)
  {
  }

  /** `check`: locates go-enc2ly, then python3, and asks the located python3 for python-ly.
      This is the reference definition; the method `Check` performs it step by step. */
  function Checked(home: string, isExecutable: string -> bool, shell: Shell): DependencyStatus {
    var go := Located("go-enc2ly", home, isExecutable, shell);
    var python3 := Located("python3", home, isExecutable, shell);
    DependencyStatus(go, python3, LyAnswers(python3, shell))
  }

  /** `check`, with the processes it starts: the go-enc2ly lookup's, then the python3 lookup's,
      then the version query on the located python3. */
  method Check(home: string, isExecutable: string -> bool, shell: Shell)
    returns (status: DependencyStatus, calls: seq<Invocation>)
    ensures status == Checked(home, isExecutable, shell)
    ensures calls == LookupCalls("go-enc2ly", home, isExecutable) + LookupCalls("python3", home, isExecutable)
                     + VersionCalls(Located("python3", home, isExecutable, shell))
  {
    var go, python3, installed, goCalls, pythonCalls, versionCalls;
    go, goCalls := FindExecutable("go-enc2ly", home, isExecutable, shell);
    python3, pythonCalls := FindExecutable("python3", home, isExecutable, shell);
    installed, versionCalls := CheckPythonLy(python3, shell);
    status := DependencyStatus(go, python3, installed);
    calls := goCalls + pythonCalls + versionCalls;
  }

  /** The library is reported installed only for the python3 that was located and reported; the
      tools are all ready exactly when both executables were located and that python3 answered
      the version query with status 0. */
  lemma CheckedConsistent(home: string, isExecutable: string -> bool, shell: Shell)
    ensures var s := Checked(home, isExecutable, shell);
            && (s.pythonLyInstalled ==>
                  s.python3Path.Some? && ExitedWithZero(shell(VersionInvocation(s.python3Path.value))))
            && (s.AllInstalled() <==>
                  && Located("go-enc2ly", home, isExecutable, shell).Some?
                  && Located("python3", home, isExecutable, shell).Some?
                  && ExitedWithZero(shell(VersionInvocation(Located("python3", home, isExecutable, shell).value))))
  {
  }
}
