/** The batch runner of the main view: the `canConvert` gate of the Convert button and
    `startConversion`, which converts the listed files one after the other.

    The run is modelled as one sequential loop. The user's Cancel button is an input: whether
    it was pressed after the run was set up and before the first file (`cancelBeforeStart`),
    and whether it was pressed while file `i` was being converted (`cancelDuring(i)`), which
    are the only moments the main actor lets it act. */
module ContentView {
  import opened Wrappers
  import opened FileItems
  import opened ConversionEngine
  import opened DependencyChecker

  /** The status text of a file whose conversion failed after the user cancelled. */
  const CancelledMessage := "Cancelado por el usuario"

  /** `canConvert`: there are files, an output folder is chosen, no run is going on, and the
      dependency check has run and found everything installed. */
  predicate CanConvert(state: ConversionState, deps: Option<DependencyStatus>)
    reads state
  {
    |state.files| > 0 && state.outputDirectory.Some? && !state.isConverting
    && (if deps.Some? then deps.value.AllInstalled() else false)
  }

  /** The guard of `startConversion`: the engine built from the located executables and the
      output folder, or None when the check has not run, something is missing, or no folder is chosen. */
  function EngineFor(deps: Option<DependencyStatus>, outputDirectory: Option<string>): Option<(Engine, string)> {
    if deps.Some? && deps.value.AllInstalled() && outputDirectory.Some? then
      Some((Engine(deps.value.goEnc2lyPath.value, deps.value.python3Path.value), outputDirectory.value))
    else None
  }

  /** The guard admits a run exactly when the check found both executables and the library and a
      folder is chosen, and the engine then uses exactly the located paths (so the forced unwraps
      of the two paths never fail). */
  lemma EngineForIff(deps: Option<DependencyStatus>, outputDirectory: Option<string>)
    ensures var g := EngineFor(deps, outputDirectory);
            && (g.Some? <==> && deps.Some? && deps.value.goEnc2lyPath.Some? && deps.value.python3Path.Some?
                             && deps.value.pythonLyInstalled && outputDirectory.Some?)
            && (g.Some? ==> g.value.0.goEnc2lyPath == deps.value.goEnc2lyPath.value
                            && g.value.0.python3Path == deps.value.python3Path.value
                            && g.value.1 == outputDirectory.value)
  {
    if deps.Some? {
      AllInstalledIff(deps.value);
    }
  }

  /** Whenever the Convert button is enabled, `startConversion` gets past its guard; the button
      additionally demands files and no run in progress, which the guard itself does not check. */
  lemma CanConvertPassesGuard(state: ConversionState, deps: Option<DependencyStatus>)
    ensures CanConvert(state, deps) ==> EngineFor(deps, state.outputDirectory).Some?
    ensures CanConvert(state, deps) <==>
              |state.files| > 0 && !state.isConverting && EngineFor(deps, state.outputDirectory).Some?
  {
  }

  /** The status a converted file ends in: Done on success, even when the user cancelled meanwhile;
      on failure the cancel message if the user cancelled, and the error's text otherwise. */
  function Verdict(result: Result<string, string>, cancelled: bool): ConversionStatus {
    if result.Success? then Done
    else if cancelled then Error(CancelledMessage)
    else Error(result.error)
  }

  /** Every verdict ends the file's conversion, and it is Done exactly for a success. */
  lemma VerdictIff(result: Result<string, string>, cancelled: bool)
    ensures IsProcessed(Verdict(result, cancelled))
    ensures Verdict(result, cancelled) == Done <==> result.Success?
    ensures result.Failure? ==> Verdict(result, cancelled) == Error(if cancelled then CancelledMessage else result.error)
  {
  }

  // ---------------------------------------------------------------------------------------------
  // The run as a function of its inputs

  /** One status change as the list sees it. */
  datatype StatusUpdate = StatusUpdate(id: Id, status: ConversionStatus)

  /** The end of a run: the list, the filesystem, the cancel flag, and every status change in order. */
  datatype Batch = Batch(files: seq<FileItem>, disk: Disk, cancelled: bool, updates: seq<StatusUpdate>)

  /** `engine.convert(sourceURL:outputDirectory:)` for a fixed engine and output folder: a source
      path and the filesystem to the conversion's outcome. */
  type Converter = (string, Disk) -> Outcome

  /** The converter `startConversion` builds: the two-stage pipeline into the chosen folder. */
  function ConverterFor(e: Engine, outputDirectory: string, w: World): Converter {
    (source: string, disk: Disk) => Pipeline(e, source, outputDirectory, w, disk)
  }

  /** The loop of `startConversion` from index `i` on, with the cancel flag `cancelled` and the
      filesystem `disk`: it stops at the end of the list or when the flag is raised at the top
      of an iteration; otherwise file `i` is marked Converting, converted, and given its verdict.
      This is the reference definition; the methods `RunTask` and `ConvertFile` perform it in place. */
  function RunFrom(convert: Converter, cancelDuring: nat -> bool,
                   files: seq<FileItem>, i: nat, cancelled: bool, disk: Disk): Batch
    requires i <= |files|
    decreases |files| - i
  {
    if i == |files| || cancelled then Batch(files, disk, cancelled, [])
    else
      var o := convert(files[i].sourcePath, disk);
      var c := cancelDuring(i);
      var s := Verdict(o.result, c);
      var rest := RunFrom(convert, cancelDuring, files[i := files[i].(status := s)], i + 1, c, o.disk);
      rest.(updates := [StatusUpdate(files[i].id, Converting), StatusUpdate(files[i].id, s)] + rest.updates)
  }

  /** Whether the flag is up at the top of iteration `k` of a run that started at `i` with `cancelled`. */
  predicate SeenCancelled(cancelDuring: nat -> bool, i: nat, cancelled: bool, k: nat)
    requires i <= k
  {
    if k == i then cancelled else cancelDuring(k - 1)
  }

  /** The index at which a run over `n` files starting at `i` stops. */
  function StopIndex(cancelDuring: nat -> bool, n: nat, i: nat, cancelled: bool): (j: nat)
    requires i <= n
    ensures i <= j <= n
    decreases n - i
  {
    if i == n || cancelled then i else StopIndex(cancelDuring, n, i + 1, cancelDuring(i))
  }

  /** The run stops at the first index where the list ends or the flag is seen raised. */
  lemma {:induction false} StopIndexIsFirstSeen(cancelDuring: nat -> bool, n: nat, i: nat, cancelled: bool)
    requires i <= n
    ensures var j := StopIndex(cancelDuring, n, i, cancelled);
            && (j == n || SeenCancelled(cancelDuring, i, cancelled, j))
            && forall k :: i <= k < j ==> !SeenCancelled(cancelDuring, i, cancelled, k)
    decreases n - i
  {
    if i < n && !cancelled {
      StopIndexIsFirstSeen(cancelDuring, n, i + 1, cancelDuring(i));
      var j := StopIndex(cancelDuring, n, i, cancelled);
      forall k | i <= k < j ensures !SeenCancelled(cancelDuring, i, cancelled, k) {
        if k > i {
          assert SeenCancelled(cancelDuring, i + 1, cancelDuring(i), k) == SeenCancelled(cancelDuring, i, cancelled, k);
        }
      }
      assert j == n || SeenCancelled(cancelDuring, i + 1, cancelDuring(i), j);
    }
  }

  /** A run keeps the list's length, every item's id and path, the items before `i`, and the items
      from the stop index on. */
  lemma {:induction false} RunKeepsItems(convert: Converter, cancelDuring: nat -> bool,
                                         files: seq<FileItem>, i: nat, cancelled: bool, disk: Disk)
    requires i <= |files|
    ensures var b, j := RunFrom(convert, cancelDuring, files, i, cancelled, disk),
                        StopIndex(cancelDuring, |files|, i, cancelled);
            && |b.files| == |files|
            && (forall k :: 0 <= k < |files| ==> b.files[k].id == files[k].id && b.files[k].sourcePath == files[k].sourcePath)
            && (forall k :: 0 <= k < i ==> b.files[k] == files[k])
            && (forall k :: j <= k < |files| ==> b.files[k] == files[k])
    decreases |files| - i
  {
    if i < |files| && !cancelled {
      var o := convert(files[i].sourcePath, disk);
      var c := cancelDuring(i);
      var next := files[i := files[i].(status := Verdict(o.result, c))];
      RunKeepsItems(convert, cancelDuring, next, i + 1, c, o.disk);
    }
  }

  /** Every file the run visits ends Done or Error. */
  lemma {:induction false} RunProcessesVisited(convert: Converter, cancelDuring: nat -> bool,
                                               files: seq<FileItem>, i: nat, cancelled: bool, disk: Disk)
    requires i <= |files|
    ensures var b, j := RunFrom(convert, cancelDuring, files, i, cancelled, disk),
                        StopIndex(cancelDuring, |files|, i, cancelled);
            |b.files| == |files| && forall k :: i <= k < j ==> IsProcessed(b.files[k].status)
    decreases |files| - i
  {
    RunKeepsItems(convert, cancelDuring, files, i, cancelled, disk);
    if i < |files| && !cancelled {
      var o := convert(files[i].sourcePath, disk);
      var c := cancelDuring(i);
      var next := files[i := files[i].(status := Verdict(o.result, c))];
      RunProcessesVisited(convert, cancelDuring, next, i + 1, c, o.disk);
      RunKeepsItems(convert, cancelDuring, next, i + 1, c, o.disk);
      VerdictIff(o.result, c);
    }
  }

  /** A run makes two status changes per visited file. */
  lemma {:induction false} RunLogLength(convert: Converter, cancelDuring: nat -> bool,
                                        files: seq<FileItem>, i: nat, cancelled: bool, disk: Disk)
    requires i <= |files|
    ensures var b, j := RunFrom(convert, cancelDuring, files, i, cancelled, disk),
                        StopIndex(cancelDuring, |files|, i, cancelled);
            |b.updates| == 2 * (j - i)
    decreases |files| - i
  {
    if i < |files| && !cancelled {
      var o := convert(files[i].sourcePath, disk);
      var c := cancelDuring(i);
      var next := files[i := files[i].(status := Verdict(o.result, c))];
      RunLogLength(convert, cancelDuring, next, i + 1, c, o.disk);
    }
  }

  /** The first of the two status changes for each visited file, in index order, marks it Converting. */
  lemma {:induction false} RunLogConverting(convert: Converter, cancelDuring: nat -> bool,
                                            files: seq<FileItem>, i: nat, cancelled: bool, disk: Disk)
    requires i <= |files|
    ensures var b, j := RunFrom(convert, cancelDuring, files, i, cancelled, disk),
                        StopIndex(cancelDuring, |files|, i, cancelled);
            && |b.updates| == 2 * (j - i)
            && forall k :: i <= k < j ==> b.updates[2 * (k - i)] == StatusUpdate(files[k].id, Converting)
    decreases |files| - i
  {
    RunLogLength(convert, cancelDuring, files, i, cancelled, disk);
    if i < |files| && !cancelled {
      var o := convert(files[i].sourcePath, disk);
      var c := cancelDuring(i);
      var s := Verdict(o.result, c);
      var next := files[i := files[i].(status := s)];
      var rest := RunFrom(convert, cancelDuring, next, i + 1, c, o.disk);
      var j := StopIndex(cancelDuring, |files|, i, cancelled);
      RunLogConverting(convert, cancelDuring, next, i + 1, c, o.disk);
      var u := [StatusUpdate(files[i].id, Converting), StatusUpdate(files[i].id, s)] + rest.updates;
      assert RunFrom(convert, cancelDuring, files, i, cancelled, disk) == rest.(updates := u);
      forall k | i < k < j ensures u[2 * (k - i)] == StatusUpdate(files[k].id, Converting) {
        assert u[2 * (k - i)] == rest.updates[2 * (k - (i + 1))];
        assert next[k] == files[k];
      }
    }
  }

  /** The second of the two status changes for each visited file, in index order, gives it the
      status it ends the run in. */
  lemma {:induction false} RunLogVerdicts(convert: Converter, cancelDuring: nat -> bool,
                                          files: seq<FileItem>, i: nat, cancelled: bool, disk: Disk)
    requires i <= |files|
    ensures var b, j := RunFrom(convert, cancelDuring, files, i, cancelled, disk),
                        StopIndex(cancelDuring, |files|, i, cancelled);
            && |b.files| == |files| && |b.updates| == 2 * (j - i)
            && forall k :: i <= k < j ==> b.updates[2 * (k - i) + 1] == StatusUpdate(files[k].id, b.files[k].status)
    decreases |files| - i
  {
    RunKeepsItems(convert, cancelDuring, files, i, cancelled, disk);
    RunLogLength(convert, cancelDuring, files, i, cancelled, disk);
    if i < |files| && !cancelled {
      var o := convert(files[i].sourcePath, disk);
      var c := cancelDuring(i);
      var s := Verdict(o.result, c);
      var next := files[i := files[i].(status := s)];
      var rest := RunFrom(convert, cancelDuring, next, i + 1, c, o.disk);
      var j := StopIndex(cancelDuring, |files|, i, cancelled);
      RunLogVerdicts(convert, cancelDuring, next, i + 1, c, o.disk);
      RunKeepsItems(convert, cancelDuring, next, i + 1, c, o.disk);
      var u := [StatusUpdate(files[i].id, Converting), StatusUpdate(files[i].id, s)] + rest.updates;
      assert RunFrom(convert, cancelDuring, files, i, cancelled, disk) == rest.(updates := u);
      forall k | i < k < j ensures u[2 * (k - i) + 1] == StatusUpdate(files[k].id, rest.files[k].status) {
        assert u[2 * (k - i) + 1] == rest.updates[2 * (k - (i + 1)) + 1];
        assert next[k] == files[k];
      }
      assert rest.files[i] == next[i];
    }
  }

  /** Every status change of a run is about a file it visited, in index order. */
  lemma RunLogIds(convert: Converter, cancelDuring: nat -> bool,
                  files: seq<FileItem>, i: nat, cancelled: bool, disk: Disk)
    requires i <= |files|
    ensures var b, j := RunFrom(convert, cancelDuring, files, i, cancelled, disk),
                        StopIndex(cancelDuring, |files|, i, cancelled);
            forall m :: 0 <= m < |b.updates| ==> i + m / 2 < j && b.updates[m].id == files[i + m / 2].id
  {
    RunLogConverting(convert, cancelDuring, files, i, cancelled, disk);
    RunLogVerdicts(convert, cancelDuring, files, i, cancelled, disk);
    var b := RunFrom(convert, cancelDuring, files, i, cancelled, disk);
    forall m | 0 <= m < |b.updates| ensures b.updates[m].id == files[i + m / 2].id {
      var k := i + m / 2;
      if m % 2 == 0 {
        assert m == 2 * (k - i);
      } else {
        assert m == 2 * (k - i) + 1;
      }
    }
  }

  /** The cancel flag at the end of a run is the flag seen at the stop index. */
  lemma {:induction false} RunCancelFlag(convert: Converter, cancelDuring: nat -> bool,
                                         files: seq<FileItem>, i: nat, cancelled: bool, disk: Disk)
    requires i <= |files|
    ensures var b, j := RunFrom(convert, cancelDuring, files, i, cancelled, disk),
                        StopIndex(cancelDuring, |files|, i, cancelled);
            b.cancelled == SeenCancelled(cancelDuring, i, cancelled, j)
    decreases |files| - i
  {
    if i < |files| && !cancelled {
      var o := convert(files[i].sourcePath, disk);
      var c := cancelDuring(i);
      var next := files[i := files[i].(status := Verdict(o.result, c))];
      RunCancelFlag(convert, cancelDuring, next, i + 1, c, o.disk);
      var j := StopIndex(cancelDuring, |files|, i, cancelled);
      assert SeenCancelled(cancelDuring, i + 1, c, j) == SeenCancelled(cancelDuring, i, cancelled, j);
    }
  }

  /** The first file of a run gets the verdict on its own conversion, run on the filesystem the run started with. */
  lemma FirstVerdict(convert: Converter, cancelDuring: nat -> bool,
                     files: seq<FileItem>, i: nat, disk: Disk)
    requires i < |files|
    ensures var b := RunFrom(convert, cancelDuring, files, i, false, disk);
            |b.files| == |files| && b.files[i].status == Verdict(convert(files[i].sourcePath, disk).result, cancelDuring(i))
  {
    var o := convert(files[i].sourcePath, disk);
    var c := cancelDuring(i);
    var next := files[i := files[i].(status := Verdict(o.result, c))];
    RunKeepsItems(convert, cancelDuring, next, i + 1, c, o.disk);
  }

  /** Without any cancellation every file is visited: all of them end processed, and the flag stays down. */
  lemma NoCancelProcessesAll(convert: Converter, cancelDuring: nat -> bool,
                             files: seq<FileItem>, disk: Disk)
    requires forall k :: 0 <= k < |files| ==> !cancelDuring(k)
    ensures var b := RunFrom(convert, cancelDuring, files, 0, false, disk);
            |b.files| == |files| && ProcessedCount(b.files) == |files| && !b.cancelled
  {
    var b := RunFrom(convert, cancelDuring, files, 0, false, disk);
    var j := StopIndex(cancelDuring, |files|, 0, false);
    StopIndexIsFirstSeen(cancelDuring, |files|, 0, false);
    assert !SeenCancelled(cancelDuring, 0, false, j) by {
      if j > 0 {
        assert !cancelDuring(j - 1);
      }
    }
    RunProcessesVisited(convert, cancelDuring, files, 0, false, disk);
    RunCancelFlag(convert, cancelDuring, files, 0, false, disk);
    AllProcessedIff(b.files);
  }

  /** Once the flag is seen at the top of iteration `j`, file `j` and every later one keep their
      status and never appear in a status change, so none of them is ever marked Converting. */
  lemma LaterFilesUntouched(convert: Converter, cancelDuring: nat -> bool,
                            files: seq<FileItem>, cancelled: bool, disk: Disk)
    requires UniqueIds(files)
    ensures var b, j := RunFrom(convert, cancelDuring, files, 0, cancelled, disk),
                        StopIndex(cancelDuring, |files|, 0, cancelled);
            |b.files| == |files| && forall k :: j <= k < |files| ==>
              b.files[k] == files[k] && forall u :: u in b.updates ==> u.id != files[k].id
  {
    RunKeepsItems(convert, cancelDuring, files, 0, cancelled, disk);
    RunLogIds(convert, cancelDuring, files, 0, cancelled, disk);
  }

  /** On the reset list `startConversion` runs over, the files from the stop index on end the run
      still Pending, and no status change names them. */
  lemma CancelledRestPending(convert: Converter, cancelDuring: nat -> bool,
                             files: seq<FileItem>, cancelled: bool, disk: Disk)
    requires UniqueIds(files)
    ensures var b, j := RunFrom(convert, cancelDuring, ResetStatuses(files), 0, cancelled, disk),
                        StopIndex(cancelDuring, |files|, 0, cancelled);
            |b.files| == |files| && forall k :: j <= k < |files| ==>
              b.files[k].status == Pending && forall u :: u in b.updates ==> u.id != files[k].id
  {
    var r := ResetStatuses(files);
    ResetClearsCounters(files);
    assert UniqueIds(r);
    LaterFilesUntouched(convert, cancelDuring, r, cancelled, disk);
  }

  /** One iteration of the loop, with the status changes made before it in front. */
  lemma RunStep(convert: Converter, cancelDuring: nat -> bool, files: seq<FileItem>, i: nat, disk: Disk,
                log: seq<StatusUpdate>)
    requires i < |files|
    ensures var o, c := convert(files[i].sourcePath, disk), cancelDuring(i);
            var s := Verdict(o.result, c);
            var b := RunFrom(convert, cancelDuring, files, i, false, disk);
            var rest := RunFrom(convert, cancelDuring, files[i := files[i].(status := s)], i + 1, c, o.disk);
            b.(updates := log + b.updates)
              == rest.(updates := log + [StatusUpdate(files[i].id, Converting), StatusUpdate(files[i].id, s)] + rest.updates)
  {
    var o, c := convert(files[i].sourcePath, disk), cancelDuring(i);
    var s := Verdict(o.result, c);
    var rest := RunFrom(convert, cancelDuring, files[i := files[i].(status := s)], i + 1, c, o.disk);
    var head := [StatusUpdate(files[i].id, Converting), StatusUpdate(files[i].id, s)];
    assert log + (head + rest.updates) == log + head + rest.updates;
  }

  // ---------------------------------------------------------------------------------------------
  // The method

  /** `startConversion`: nothing happens unless the guard passes; otherwise the run flag goes up,
      every status is reset to Pending and the cancel flag cleared, the files are converted in
      index order until the list ends or the cancel flag is seen at the top of an iteration, and
      the run flag goes down. Returns the filesystem afterwards and the status changes made. */
  method StartConversion(state: ConversionState, deps: Option<DependencyStatus>, w: World, disk: Disk,
                         cancelBeforeStart: bool, cancelDuring: nat -> bool)
    returns (diskAfter: Disk, updates: seq<StatusUpdate>)
    requires state.Valid()
    modifies state
    ensures state.Valid()
    ensures state.nextId == old(state.nextId) && state.outputDirectory == old(state.outputDirectory)
    ensures EngineFor(deps, old(state.outputDirectory)).None? ==>
              && state.files == old(state.files) && state.isConverting == old(state.isConverting)
              && state.isCancelled == old(state.isCancelled) && diskAfter == disk && updates == []
    ensures EngineFor(deps, old(state.outputDirectory)).Some? ==>
              var g := EngineFor(deps, old(state.outputDirectory)).value;
              var b := RunFrom(ConverterFor(g.0, g.1, w), cancelDuring, ResetStatuses(old(state.files)), 0, cancelBeforeStart, disk);
              && state.files == b.files && state.isCancelled == b.cancelled && !state.isConverting
              && diskAfter == b.disk && updates == b.updates
  {
    var guard := EngineFor(deps, state.outputDirectory);
    if guard.None? {
      return disk, [];
    }
    var (engine, outputDir) := guard.value;
    state.isConverting := true;
    state.ResetAll();
    if cancelBeforeStart {
      state.CancelConversion();
    }
    diskAfter, updates := RunTask(state, engine, outputDir, w, disk, cancelDuring);
  }

  /** The `Task` `startConversion` starts, while the run flag is up: the loop over the files, from
      the list and the cancel flag it finds, and then the run flag goes down. */
  method RunTask(state: ConversionState, engine: Engine, outputDir: string, w: World, disk: Disk,
                 cancelDuring: nat -> bool)
    returns (diskAfter: Disk, updates: seq<StatusUpdate>)
    requires state.Valid() && state.isConverting
    modifies state
    ensures state.Valid()
    ensures state.nextId == old(state.nextId) && state.outputDirectory == old(state.outputDirectory)
    ensures var b := RunFrom(ConverterFor(engine, outputDir, w), cancelDuring, old(state.files), 0, old(state.isCancelled), disk);
            && state.files == b.files && state.isCancelled == b.cancelled && !state.isConverting
            && diskAfter == b.disk && updates == b.updates
  {
    ghost var convert := ConverterFor(engine, outputDir, w);
    ghost var total := RunFrom(convert, cancelDuring, state.files, 0, state.isCancelled, disk);
    diskAfter, updates := disk, [];
    var n := |state.files|;
    var i := 0;
    while i < n
      invariant 0 <= i <= n == |state.files|
      invariant state.Valid() && state.isConverting
      invariant state.nextId == old(state.nextId) && state.outputDirectory == old(state.outputDirectory)
      invariant var b := RunFrom(convert, cancelDuring, state.files, i, state.isCancelled, diskAfter);
                total == b.(updates := updates + b.updates)
      decreases n - i
    {
      if state.isCancelled {
        break;
      }
      ghost var before, log := state.files, updates;
      RunStep(convert, cancelDuring, before, i, diskAfter, log);
      var fileUpdates;
      diskAfter, fileUpdates := ConvertFile(state, engine, outputDir, w, diskAfter, i, cancelDuring(i));
      updates := updates + fileUpdates;
      i := i + 1;
    }
    state.isConverting := false;
  }

  /** One iteration of the loop: file `i` is marked Converting, converted, and given its verdict,
      with `pressed` telling whether the user cancelled while it was being converted. */
  method ConvertFile(state: ConversionState, engine: Engine, outputDir: string, w: World, disk: Disk,
                     i: nat, pressed: bool)
    returns (diskAfter: Disk, updates: seq<StatusUpdate>)
    requires state.Valid() && i < |state.files| && !state.isCancelled
    modifies state
    ensures state.Valid()
    ensures state.nextId == old(state.nextId) && state.outputDirectory == old(state.outputDirectory)
    ensures state.isConverting == old(state.isConverting) && state.isCancelled == pressed
    ensures var file, o := old(state.files[i]), ConverterFor(engine, outputDir, w)(old(state.files[i].sourcePath), disk);
            && state.files == old(state.files)[i := file.(status := Verdict(o.result, pressed))]
            && diskAfter == o.disk
            && updates == [StatusUpdate(file.id, Converting), StatusUpdate(file.id, Verdict(o.result, pressed))]
  {
    var file := state.files[i];
    ghost var start := state.files;
    WithStatusAtOwnIndex(state.files, i, Converting);
    state.UpdateStatus(file.id, Converting);
    ghost var mid := state.files;
    assert mid == start[i := file.(status := Converting)];
    var result, calls;
    result, diskAfter, calls := Convert(engine, file.sourcePath, outputDir, w, disk);
    ghost var o := ConverterFor(engine, outputDir, w)(file.sourcePath, disk);
    assert o == Outcome(result, diskAfter, calls);
    if pressed {
      state.CancelConversion();
    }
    var status;
    if result.Success? {
      status := Done;
    } else if state.isCancelled {
      status := Error(CancelledMessage);
    } else {
      status := Error(result.error);
    }
    assert status == Verdict(o.result, pressed);
    WithStatusAtOwnIndex(state.files, i, status);
    state.UpdateStatus(file.id, status);
    assert state.files == mid[i := file.(status := status)];
    assert state.files == start[i := file.(status := status)] by {
      assert mid[i := file.(status := status)] == start[i := file.(status := status)];
    }
    updates := [StatusUpdate(file.id, Converting), StatusUpdate(file.id, status)];
  }
}
