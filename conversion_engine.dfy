/** `ConversionEngine`: converts one `.enc` file into `.musicxml` by running go-enc2ly
    (stage 1, `.enc` to LilyPond on standard output, saved as `<out>/<base>.ly`) and then
    `python3 -m ly musicxml` (stage 2, `.ly` to `<out>/<base>.musicxml`), and finally removes
    the intermediate `.ly` file, best effort.

    The filesystem is a value (`Disk`) threaded through the steps, and everything the engine
    asks of the operating system (starting a process, writing a file, removing a file) is
    answered by a `World`. Each step also returns the processes it started, in order. */
module ConversionEngine {
  import opened Wrappers
  import opened Processes
  import Strings
  import Paths

  /** The files that exist, by path, with their contents. */
  type Disk = map<string, string>

  /** What starting a process came to: whether it ran and what it printed, and the filesystem
      once it had ended (a process may create or change files). */
  datatype Effect = Effect(spawn: Spawn, after: Disk)

  /** The operating system as the engine sees it.
      `run`: starting an executable with arguments on a filesystem;
      `writeError`: the description of the error `Data.write(to:)` throws for a path, or None when the write succeeds;
      `removeSucceeds`: whether `FileManager.removeItem(at:)` succeeds for a path. */
  datatype World = World(
    run: (Invocation, Disk) -> Effect,
    writeError: (string, Disk) -> Option<string>,
    removeSucceeds: (string, Disk) -> bool)

  /** The engine is configured with the two located executables. */
  datatype Engine = Engine(goEnc2lyPath: string, python3Path: string)

  /** The end of one stage: the thrown error's message (None: the stage passed), the filesystem, the processes started. */
  datatype Step = Step(error: Option<string>, disk: Disk, calls: seq<Invocation>)

  /** The end of one conversion: the returned `.musicxml` path or the thrown error's message,
      the filesystem, the processes started. */
  datatype Outcome = Outcome(result: Result<string, string>, disk: Disk, calls: seq<Invocation>)

  // ---------------------------------------------------------------------------------------------
  // Paths, invocations and messages

  /** `<outputDirectory>/<base>.ly`, the LilyPond file stage 1 writes. */
  function IntermediatePath(source: string, outputDirectory: string): string {
    Paths.AppendingComponent(outputDirectory, Paths.BaseName(source) + ".ly")
  }

  /** `<outputDirectory>/<base>.musicxml`, the file stage 2 produces and `convert` returns. */
  function FinalPath(source: string, outputDirectory: string): string {
    Paths.AppendingComponent(outputDirectory, Paths.BaseName(source) + ".musicxml")
  }

  function Enc2LyInvocation(e: Engine, source: string): Invocation {
    Invocation(e.goEnc2lyPath, [source])
  }

  function Ly2MusicXmlInvocation(e: Engine, lyPath: string, musicxmlPath: string): Invocation {
    Invocation(e.python3Path, ["-m", "ly", "musicxml", lyPath, "-o", musicxmlPath])
  }

  /** The error `runProcess` throws when the executable cannot be started. */
  function SpawnFailureMessage(executablePath: string, description: string): string {
    "No se pudo ejecutar " + executablePath + ": " + description
  }

  function ExitCodeText(code: ExitCode): string {
    "Exit code " + Strings.IntToDecimal(code)
  }

  /** Stage 1 exited with a nonzero status: its standard error, or the exit code when that is empty. */
  function Enc2LyFailedMessage(r: ProcessResult): string {
    "go-enc2ly error: " + (if r.stderr == "" then ExitCodeText(r.exitCode) else r.stderr)
  }

  /** Stage 1 exited with 0 but printed nothing. */
  function Enc2LyEmptyMessage(r: ProcessResult): string {
    "go-enc2ly no genero salida: " + (if r.stderr == "" then "No output produced" else r.stderr)
  }

  /** Stage 2 exited with a nonzero status: standard error, else standard output, else the exit code. */
  function Ly2MusicXmlFailedMessage(r: ProcessResult): string {
    "ly musicxml error: " + (if r.stderr != "" then r.stderr else if r.stdout != "" then r.stdout else ExitCodeText(r.exitCode))
  }

  /** Stage 2 exited with 0 but the output file is not there: what it printed, or a fixed text. */
  function Ly2MusicXmlNoOutputMessage(r: ProcessResult): string {
    "ly musicxml: " + (if r.stdout == "" then "Archivo de salida no generado" else r.stdout)
  }

  // ---------------------------------------------------------------------------------------------
  // The stages as functions of the world and the filesystem

  /** `runEnc2Ly`: run go-enc2ly on the source and save what it printed at `output`.
      This is the reference definition; the method `RunEnc2Ly` performs it step by step. */
  function Enc2Ly(e: Engine, source: string, output: string, w: World, disk: Disk): Step {
    var inv := Enc2LyInvocation(e, source);
    var eff := w.run(inv, disk);
    match eff.spawn
    case SpawnFailed(description) => Step(Some(SpawnFailureMessage(e.goEnc2lyPath, description)), disk, [inv])
    case Exited(r) =>
      if r.exitCode != 0 then Step(Some(Enc2LyFailedMessage(r)), eff.after, [inv])
      else if r.stdout == "" then Step(Some(Enc2LyEmptyMessage(r)), eff.after, [inv])
      else match w.writeError(output, eff.after)
        case Some(description) => Step(Some(description), eff.after, [inv])
        case None => Step(None, eff.after[output := r.stdout], [inv])
  }

  /** `runLy2MusicXML`: run `python3 -m ly musicxml` and check that the output file exists.
      This is the reference definition; the method `RunLy2MusicXML` performs it step by step. */
  function Ly2MusicXml(e: Engine, source: string, output: string, w: World, disk: Disk): Step {
    var inv := Ly2MusicXmlInvocation(e, source, output);
    var eff := w.run(inv, disk);
    match eff.spawn
    case SpawnFailed(description) => Step(Some(SpawnFailureMessage(e.python3Path, description)), disk, [inv])
    case Exited(r) =>
      if r.exitCode != 0 then Step(Some(Ly2MusicXmlFailedMessage(r)), eff.after, [inv])
      else if output !in eff.after then Step(Some(Ly2MusicXmlNoOutputMessage(r)), eff.after, [inv])
      else Step(None, eff.after, [inv])
  }

  /** `try? FileManager.default.removeItem(at:)`: the path is gone when removal succeeds; a failure is ignored. */
  function RemovedBestEffort(path: string, w: World, disk: Disk): Disk {
    if w.removeSucceeds(path, disk) then disk - {path} else disk
  }

  /** `convert`: stage 1, then stage 2, then the best-effort removal of the `.ly` file, on the
      two paths derived from the source and the output directory.
      This is the reference definition; the method `Convert` performs it step by step. */
  function Pipeline(e: Engine, source: string, outputDirectory: string, w: World, disk: Disk): Outcome {
    ConvertVia(e, source, IntermediatePath(source, outputDirectory), FinalPath(source, outputDirectory), w, disk)
  }

  /** The body of `convert` once the `.ly` path `ly` and the `.musicxml` path `musicxml` are fixed. */
  function ConvertVia(e: Engine, source: string, ly: string, musicxml: string, w: World, disk: Disk): Outcome {
    var s1 := Enc2Ly(e, source, ly, w, disk);
    if s1.error.Some? then Outcome(Failure(s1.error.value), s1.disk, s1.calls)
    else
      var s2 := Ly2MusicXml(e, ly, musicxml, w, s1.disk);
      if s2.error.Some? then Outcome(Failure(s2.error.value), s2.disk, s1.calls + s2.calls)
      else Outcome(Success(musicxml), RemovedBestEffort(ly, w, s2.disk), s1.calls + s2.calls)
  }

  // ---------------------------------------------------------------------------------------------
  // The stages as the step-by-step guard chains the engine runs

  method RunEnc2Ly(e: Engine, source: string, output: string, w: World, disk: Disk)
    returns (error: Option<string>, diskAfter: Disk, calls: seq<Invocation>)
    ensures Step(error, diskAfter, calls) == Enc2Ly(e, source, output, w, disk)
  {
    var invocation := Enc2LyInvocation(e, source);
    calls := [invocation];
    var effect := w.run(invocation, disk);
    if effect.spawn.SpawnFailed? {
      return Some(SpawnFailureMessage(e.goEnc2lyPath, effect.spawn.description)), disk, calls;
    }
    var result := effect.spawn.result;
    diskAfter := effect.after;
    if result.exitCode != 0 {
      return Some(Enc2LyFailedMessage(result)), diskAfter, calls;
    }
    if result.stdout == "" {
      return Some(Enc2LyEmptyMessage(result)), diskAfter, calls;
    }
    var writeError := w.writeError(output, diskAfter);
    if writeError.Some? {
      return writeError, diskAfter, calls;
    }
    diskAfter := diskAfter[output := result.stdout];
    error := None;
  }

  method RunLy2MusicXML(e: Engine, source: string, output: string, w: World, disk: Disk)
    returns (error: Option<string>, diskAfter: Disk, calls: seq<Invocation>)
    ensures Step(error, diskAfter, calls) == Ly2MusicXml(e, source, output, w, disk)
  {
    var invocation := Ly2MusicXmlInvocation(e, source, output);
    calls := [invocation];
    var effect := w.run(invocation, disk);
    if effect.spawn.SpawnFailed? {
      return Some(SpawnFailureMessage(e.python3Path, effect.spawn.description)), disk, calls;
    }
    var result := effect.spawn.result;
    diskAfter := effect.after;
    if result.exitCode != 0 {
      return Some(Ly2MusicXmlFailedMessage(result)), diskAfter, calls;
    }
    if output !in diskAfter {
      return Some(Ly2MusicXmlNoOutputMessage(result)), diskAfter, calls;
    }
    error := None;
  }

  method Convert(e: Engine, source: string, outputDirectory: string, w: World, disk: Disk)
    returns (result: Result<string, string>, diskAfter: Disk, calls: seq<Invocation>)
    ensures Outcome(result, diskAfter, calls) == Pipeline(e, source, outputDirectory, w, disk)
  {
    var ly := IntermediatePath(source, outputDirectory);
    var musicxml := FinalPath(source, outputDirectory);
    var error, calls1, calls2;
    error, diskAfter, calls1 := RunEnc2Ly(e, source, ly, w, disk);
    if error.Some? {
      return Failure(error.value), diskAfter, calls1;
    }
    error, diskAfter, calls2 := RunLy2MusicXML(e, ly, musicxml, w, diskAfter);
    calls := calls1 + calls2;
    if error.Some? {
      return Failure(error.value), diskAfter, calls;
    }
    if w.removeSucceeds(ly, diskAfter) {
      diskAfter := diskAfter - {ly};
    }
    result := Success(musicxml);
  }

  // ---------------------------------------------------------------------------------------------
  // What the engine promises

  /** The intermediate and the final file sit in the output directory, carry the source's base name
      with the extensions "ly" and "musicxml", and are two different files. */
  lemma DerivedPaths(source: string, outputDirectory: string)
    ensures var base, ly, musicxml := Paths.BaseName(source), IntermediatePath(source, outputDirectory), FinalPath(source, outputDirectory);
            && Paths.LastComponent(ly) == base + ".ly" && Paths.LastComponent(musicxml) == base + ".musicxml"
            && Paths.BaseName(ly) == base && Paths.PathExtension(ly) == "ly"
            && Paths.BaseName(musicxml) == base && Paths.PathExtension(musicxml) == "musicxml"
            && |outputDirectory| < |ly| && ly[..|outputDirectory|] == outputDirectory
            && |outputDirectory| < |musicxml| && musicxml[..|outputDirectory|] == outputDirectory
            && ly != musicxml
  {
    var base := Paths.BaseName(source);
    var ly, musicxml := IntermediatePath(source, outputDirectory), FinalPath(source, outputDirectory);
    Paths.AppendingKeepsDirectory(outputDirectory, base + ".ly");
    Paths.AppendingKeepsDirectory(outputDirectory, base + ".musicxml");
    SuffixesWellFormed();
    NamedInDirectory(source, outputDirectory, ".ly");
    NamedInDirectory(source, outputDirectory, ".musicxml");
    var a, b := Paths.LastComponent(ly), Paths.LastComponent(musicxml);
    assert |a| != |b|;
  }

  /** Two sources with the same base name, wherever they are, use the same `.ly` and `.musicxml`
      paths in a given output directory. */
  lemma SameBaseNameSamePaths(a: string, b: string, outputDirectory: string)
    requires Paths.BaseName(a) == Paths.BaseName(b)
    ensures IntermediatePath(a, outputDirectory) == IntermediatePath(b, outputDirectory)
    ensures FinalPath(a, outputDirectory) == FinalPath(b, outputDirectory)
  {
  }

  lemma SuffixesWellFormed()
    ensures '/' !in ".ly" && '.' !in ".ly"[1..] && ".ly"[1..] == "ly"
    ensures '/' !in ".musicxml" && '.' !in ".musicxml"[1..] && ".musicxml"[1..] == "musicxml"
  {
  }

  /** The file named after the source's base name followed by `suffix`, inside the output directory. */
  lemma NamedInDirectory(source: string, outputDirectory: string, suffix: string)
    requires '/' !in suffix && |suffix| > 0 && suffix[0] == '.' && '.' !in suffix[1..]
    ensures var base := Paths.BaseName(source);
            var path := Paths.AppendingComponent(outputDirectory, base + suffix);
            && Paths.LastComponent(path) == base + suffix
            && Paths.BaseName(path) == base && Paths.PathExtension(path) == suffix[1..]
  {
    Paths.SplitLastComponent(source);
    Paths.NameWithExtension(outputDirectory, Paths.BaseName(source), suffix);
  }

  /** Stage 1 passes exactly when go-enc2ly ran, exited with 0, printed something, and that
      output could be written; the `.ly` file then holds exactly what it printed. */
  lemma Enc2LyPassesIff(e: Engine, source: string, output: string, w: World, disk: Disk)
    ensures var s, eff := Enc2Ly(e, source, output, w, disk), w.run(Enc2LyInvocation(e, source), disk);
            && (s.error.None? <==> ExitedWithZero(eff.spawn) && eff.spawn.result.stdout != ""
                                   && w.writeError(output, eff.after).None?)
            && (s.error.None? ==> s.disk == eff.after[output := eff.spawn.result.stdout])
            && s.calls == [Enc2LyInvocation(e, source)]
  {
  }

  // The lemmas below hold for any two paths `ly` and `musicxml`; `Pipeline` uses the ones
  // `DerivedPaths` describes.

  /** A nonzero exit of go-enc2ly fails the conversion with its standard error (or the exit code),
      and python3 is never started. */
  lemma Stage1ExitFailure(e: Engine, source: string, ly: string, musicxml: string, w: World, disk: Disk)
    requires var eff := w.run(Enc2LyInvocation(e, source), disk); eff.spawn.Exited? && eff.spawn.result.exitCode != 0
    ensures var o, r := ConvertVia(e, source, ly, musicxml, w, disk), w.run(Enc2LyInvocation(e, source), disk).spawn.result;
            && o.result == Failure("go-enc2ly error: " + (if r.stderr == "" then "Exit code " + Strings.IntToDecimal(r.exitCode) else r.stderr))
            && o.calls == [Enc2LyInvocation(e, source)]
  {
  }

  /** Exit status 0 with empty standard output still fails the conversion, and python3 is never started. */
  lemma Stage1EmptyOutput(e: Engine, source: string, ly: string, musicxml: string, w: World, disk: Disk)
    requires var eff := w.run(Enc2LyInvocation(e, source), disk); ExitedWithZero(eff.spawn) && eff.spawn.result.stdout == ""
    ensures var o, r := ConvertVia(e, source, ly, musicxml, w, disk), w.run(Enc2LyInvocation(e, source), disk).spawn.result;
            && o.result == Failure("go-enc2ly no genero salida: " + (if r.stderr == "" then "No output produced" else r.stderr))
            && o.calls == [Enc2LyInvocation(e, source)]
  {
  }

  /** When go-enc2ly cannot be started, the conversion fails with the spawn error, the filesystem is untouched,
      and python3 is never started. */
  lemma Stage1SpawnFailure(e: Engine, source: string, ly: string, musicxml: string, w: World, disk: Disk)
    requires w.run(Enc2LyInvocation(e, source), disk).spawn.SpawnFailed?
    ensures var o, d := ConvertVia(e, source, ly, musicxml, w, disk), w.run(Enc2LyInvocation(e, source), disk).spawn.description;
            && o.result == Failure("No se pudo ejecutar " + e.goEnc2lyPath + ": " + d)
            && o.disk == disk && o.calls == [Enc2LyInvocation(e, source)]
  {
  }

  /** When python3 cannot be started after stage 1 passed, the conversion fails with the spawn
      error, both processes were started, and the filesystem is the one stage 1 left, `.ly` included. */
  lemma Stage2SpawnFailure(e: Engine, source: string, ly: string, musicxml: string, w: World, disk: Disk)
    requires var s1 := Enc2Ly(e, source, ly, w, disk);
             s1.error.None? && w.run(Ly2MusicXmlInvocation(e, ly, musicxml), s1.disk).spawn.SpawnFailed?
    ensures var s1 := Enc2Ly(e, source, ly, w, disk);
            var o, d := ConvertVia(e, source, ly, musicxml, w, disk),
                        w.run(Ly2MusicXmlInvocation(e, ly, musicxml), s1.disk).spawn.description;
            && o.result == Failure("No se pudo ejecutar " + e.python3Path + ": " + d)
            && o.disk == s1.disk
            && o.calls == [Enc2LyInvocation(e, source), Ly2MusicXmlInvocation(e, ly, musicxml)]
  {
    Enc2LyPassesIff(e, source, ly, w, disk);
  }

  /** Once stage 1 has passed, python3 is started with exactly `-m ly musicxml <ly> -o <musicxml>`,
      on the filesystem that holds what go-enc2ly printed at the `.ly` path. */
  lemma Stage2Arguments(e: Engine, source: string, ly: string, musicxml: string, w: World, disk: Disk)
    requires Enc2Ly(e, source, ly, w, disk).error.None?
    ensures var o, eff := ConvertVia(e, source, ly, musicxml, w, disk), w.run(Enc2LyInvocation(e, source), disk);
            && o.calls == [Invocation(e.goEnc2lyPath, [source]), Invocation(e.python3Path, ["-m", "ly", "musicxml", ly, "-o", musicxml])]
            && Enc2Ly(e, source, ly, w, disk).disk[ly] == eff.spawn.result.stdout
  {
    Enc2LyPassesIff(e, source, ly, w, disk);
  }

  /** A nonzero exit of stage 2 fails with standard error, else standard output, else the exit code;
      the `.ly` file is not removed: the filesystem is as stage 2 left it. */
  lemma Stage2ExitFailure(e: Engine, source: string, ly: string, musicxml: string, w: World, disk: Disk)
    requires var s1 := Enc2Ly(e, source, ly, w, disk);
             var eff := w.run(Ly2MusicXmlInvocation(e, ly, musicxml), s1.disk);
             s1.error.None? && eff.spawn.Exited? && eff.spawn.result.exitCode != 0
    ensures var s1 := Enc2Ly(e, source, ly, w, disk);
            var eff := w.run(Ly2MusicXmlInvocation(e, ly, musicxml), s1.disk);
            var o, r := ConvertVia(e, source, ly, musicxml, w, disk), eff.spawn.result;
            && o.result == Failure("ly musicxml error: " + (if r.stderr != "" then r.stderr else if r.stdout != "" then r.stdout
                                                            else "Exit code " + Strings.IntToDecimal(r.exitCode)))
            && o.disk == eff.after
  {
  }

  /** Exit status 0 from stage 2 is not enough: without the output file the conversion fails with
      what stage 2 printed (or a fixed text), and the `.ly` file is not removed. */
  lemma Stage2MissingOutput(e: Engine, source: string, ly: string, musicxml: string, w: World, disk: Disk)
    requires var s1 := Enc2Ly(e, source, ly, w, disk);
             var eff := w.run(Ly2MusicXmlInvocation(e, ly, musicxml), s1.disk);
             s1.error.None? && ExitedWithZero(eff.spawn) && musicxml !in eff.after
    ensures var s1 := Enc2Ly(e, source, ly, w, disk);
            var eff := w.run(Ly2MusicXmlInvocation(e, ly, musicxml), s1.disk);
            var o, r := ConvertVia(e, source, ly, musicxml, w, disk), eff.spawn.result;
            && o.result == Failure("ly musicxml: " + (if r.stdout == "" then "Archivo de salida no generado" else r.stdout))
            && o.disk == eff.after
  {
  }

  /** The conversion succeeds exactly when stage 1 passed, stage 2 ran and exited with 0, and the
      `.musicxml` file exists afterwards; it then returns that file's path, both processes were
      started in order, and the `.ly` file is removed when its removal succeeds (otherwise the
      filesystem is as stage 2 left it), while the `.musicxml` file (a different path) stays. */
  lemma SucceedsIff(e: Engine, source: string, ly: string, musicxml: string, w: World, disk: Disk)
    requires ly != musicxml
    ensures var s1 := Enc2Ly(e, source, ly, w, disk);
            var eff := w.run(Ly2MusicXmlInvocation(e, ly, musicxml), s1.disk);
            var o := ConvertVia(e, source, ly, musicxml, w, disk);
            && (o.result.Success? <==> s1.error.None? && ExitedWithZero(eff.spawn) && musicxml in eff.after)
            && (o.result.Success? ==>
                  && o.result.value == musicxml
                  && o.calls == [Enc2LyInvocation(e, source), Ly2MusicXmlInvocation(e, ly, musicxml)]
                  && o.disk == (if w.removeSucceeds(ly, eff.after) then eff.after - {ly} else eff.after)
                  && musicxml in o.disk)
  {
  }

  /** Whether removing the `.ly` file succeeds changes neither the result nor the processes started. */
  lemma CleanupNeverChangesResult(e: Engine, source: string, ly: string, musicxml: string, w: World, disk: Disk,
                                  removal: (string, Disk) -> bool)
    ensures var o, o' := ConvertVia(e, source, ly, musicxml, w, disk),
                         ConvertVia(e, source, ly, musicxml, w.(removeSucceeds := removal), disk);
            o'.result == o.result && o'.calls == o.calls
  {
  }

  /** A failed conversion never removes anything: the filesystem is the one the last step left. */
  lemma FailureKeepsIntermediate(e: Engine, source: string, ly: string, musicxml: string, w: World, disk: Disk)
    ensures var s1 := Enc2Ly(e, source, ly, w, disk);
            var o := ConvertVia(e, source, ly, musicxml, w, disk);
            o.result.Failure? ==>
              o.disk == if s1.error.Some? then s1.disk else Ly2MusicXml(e, ly, musicxml, w, s1.disk).disk
  {
  }
}
