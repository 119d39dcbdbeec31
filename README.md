# Encore batch converter: a verified model of its conversion core

EncoreConverter is a macOS application that converts Encore score files (`.enc`) to MusicXML. The user
lists `.enc` files, picks an output folder and presses Convert. Each file then goes through two
external tools. `go-enc2ly` translates the `.enc` file to LilyPond on its standard output, which
is saved as `<out>/<base>.ly`. Then `python3 -m ly musicxml` turns that file into
`<out>/<base>.musicxml`. Last, the intermediate `.ly` file is removed, best effort. Before
anything runs, a dependency check locates the two executables and checks that the python-ly
library answers.

This project models the four parts of that core in Dafny and proves what each one promises.

- **`FileItems`** (`file_item.dfy`) holds the job list.
  - `ConversionStatus` and `FileItem` are datatypes.
  - `ConversionState` is a class whose methods update `files` and the two run flags in place.
  - The counters `completedCount`, `processedCount` and `hasErrors`, and `errorMessage`, are functions.
- **`ConversionEngine`** (`conversion_engine.dfy`) is the two-stage pipeline.
  - Each stage is a method, proved equal to a function on the inputs.
  - A `World` value stands for the operating system: it starts processes, writes one file and removes one file.
  - The filesystem is a `Disk` value (path to contents) threaded through the steps.
- **`DependencyChecker`** (`dependency_checker.dfy`) is the readiness check.
  - The executability test is a predicate on paths.
  - A `Shell` is a function from an invocation to its outcome.
  - `findExecutable` is a `for` loop with an early return.
- **`ContentView`** (`content_view.dfy`) holds the gate of the Convert button and the `startConversion` batch loop.
  - The loop is specified by a recursive function `RunFrom`. All the run's properties are proved about `RunFrom`.
  - `RunFrom` takes the converter as a parameter, so those properties hold for any converter.

Helper modules:

- `Strings` (`strings.dfy`): lower-casing, decimal rendering of an `Int32`, and trimming white space and newlines.
- `Paths` (`paths.dfy`): last path component, extension and base name, and appending a component.
- `Processes` (`processes.dfy`): invocations and process results.
- `Wrappers` (`wrappers.dfy`): `Option` and `Result`.

Every method of the engine and of the dependency checker also returns the processes it
started, in order (the batch runner's methods return the status changes they made instead).
This lets a contract say, for example, that stage 2 is never started after stage 1 failed,
or that `which` is asked only as a fallback. The user's Cancel button is an input of the run:

- `cancelBeforeStart`: pressed after the reset and before the first file;
- `cancelDuring(i)`: pressed while file `i` is being converted.

The main actor lets a press take effect only at these moments.

`addFiles` checks new paths only against the paths listed before the call
(EncoreConverter/FileItem.swift:69-71), so a path offered twice in one call is added twice;
`FileItems.DuplicateInOneCallAdmittedTwice` shows this.

Two sources with the same base name in different folders use the same two paths in the output
folder (`ConversionEngine.SameBaseNameSamePaths`, from the derivation `ConversionEngine.DerivedPaths`
describes). A `.musicxml` file left over from an earlier run counts as a success, because stage 2
only checks that the output file exists after it ran (`ConversionEngine.SucceedsIff`).

## Model

| member | source | states |
|---|---|---|
| FileItems.ErrorMessage | EncoreConverter/FileItem.swift:38-41 | The message is present exactly when the status is an error, and it is that error's text |
| FileItems.CompletedCount | EncoreConverter/FileItem.swift:51-53 | The number of Done items is at most the number of items |
| FileItems.ProcessedCount | EncoreConverter/FileItem.swift:55-61 | The number of Done-or-Error items is at most the number of items |
| FileItems.CompletedAtMostProcessed | EncoreConverter/FileItem.swift:51-61 | completedCount never exceeds processedCount |
| FileItems.HasErrorsIffProcessedExceedsCompleted | EncoreConverter/FileItem.swift:51-65 | hasErrors holds exactly when processedCount exceeds completedCount |
| FileItems.AllProcessedIff | EncoreConverter/FileItem.swift:55-61 | processedCount equals the list length exactly when every item is Done or Error |
| FileItems.ResetClearsCounters | EncoreConverter/FileItem.swift:90-95 | After a reset the length, ids and paths are unchanged, and no item counts as processed, completed or failed |
| FileItems.ResetStatuses | EncoreConverter/FileItem.swift:90-93 | The value form of `resetAll`'s loop: every status Pending; `ResetClearsCounters` characterises it |
| FileItems.HasErrors | EncoreConverter/FileItem.swift:63-65 | Reference definition: some item's status is Error; `HasErrorsIffProcessedExceedsCompleted` ties it to the counters |
| FileItems.IsEncPath | EncoreConverter/FileItem.swift:68 | Reference definition of the accepted extension; `IsEncPathIff` characterises it |
| FileItems.IsEncPathIff | EncoreConverter/FileItem.swift:68 | A path is accepted exactly when its extension is three letters spelling "enc" in any mix of cases |
| FileItems.LowersToEnc | EncoreConverter/FileItem.swift:68 | The texts whose lower-case form is "enc" are exactly the case variants of "enc" |
| FileItems.Admitted | EncoreConverter/FileItem.swift:68-72 | Every url added has an accepted extension, came from the input and was not already listed; no more are added than offered |
| FileItems.AdmittedComplete | EncoreConverter/FileItem.swift:68-72 | No url that has the accepted extension and is not yet listed is dropped |
| FileItems.AdmittedConcat | EncoreConverter/FileItem.swift:67-74 | Admission goes url by url, so the input order is kept |
| FileItems.DuplicateInOneCallAdmittedTwice | EncoreConverter/FileItem.swift:69-72 | A new path offered twice in one call is added twice, because uniqueness is checked only against the paths listed before the call |
| FileItems.AdmittedNoDuplicates | EncoreConverter/FileItem.swift:69-72 | An input without repeated urls admits no repeated url |
| FileItems.AddFilesKeepsPathsUnique | EncoreConverter/FileItem.swift:67-74 | A list without repeated paths, extended by a call that offers no url twice, has no repeated paths |
| FileItems.SourcePaths | EncoreConverter/FileItem.swift:69 | The set of paths already listed (`existingPaths`); `Admitted` and `AddFilesKeepsPathsUnique` are stated against it |
| FileItems.NewItems | EncoreConverter/FileItem.swift:70-72 | The new Pending items with consecutive fresh ids for the admitted paths, in order; `ConversionState.AddFiles` appends exactly these |
| FileItems.FirstIndexWithId | EncoreConverter/FileItem.swift:85 | The result is the first position holding the id, or none when no position holds it |
| FileItems.UniqueIdsFirstIndex | EncoreConverter/FileItem.swift:85 | With unique ids, the first position with an item's id is that item's own position |
| FileItems.WithStatus | EncoreConverter/FileItem.swift:84-88 | The value form of `updateStatus`; `UpdateTouchesFirstOnly` and `WithStatusAtOwnIndex` characterise it |
| FileItems.UpdateTouchesFirstOnly | EncoreConverter/FileItem.swift:84-88 | Only the first item with the id gets the new status, keeping its id and path; every other item is unchanged; an absent id changes nothing |
| FileItems.WithStatusAtOwnIndex | EncoreConverter/FileItem.swift:84-88 | With unique ids, updating by an item's id changes exactly that item's status |
| FileItems.WithoutId | EncoreConverter/FileItem.swift:77 | The kept items are exactly the items whose id differs from the removed one |
| FileItems.WithoutIdConcat | EncoreConverter/FileItem.swift:77 | Removal goes item by item, so the kept items stay in their relative order |
| FileItems.WithoutIdKeepsUniqueIds | EncoreConverter/FileItem.swift:77 | Removal keeps ids unique |
| FileItems.WithoutPresentIdShrinksByOne | EncoreConverter/FileItem.swift:76-78 | With unique ids, removing a listed item drops exactly one item |
| FileItems.WithoutIdOfAbsent | EncoreConverter/FileItem.swift:76-78 | Removing an id no item carries leaves the list as it was |
| FileItems.ConversionState.constructor | EncoreConverter/FileItem.swift:45-49 | A new state has an empty list, no output folder, and both flags down |
| FileItems.ConversionState.AddFiles | EncoreConverter/FileItem.swift:67-74 | The new list is the old list followed by fresh Pending items for the admitted urls, in input order; the flags and the folder are unchanged; ids stay unique |
| FileItems.ConversionState.RemoveFile | EncoreConverter/FileItem.swift:76-78 | The list loses exactly the items with the given id; nothing else changes |
| FileItems.ConversionState.ClearAll | EncoreConverter/FileItem.swift:80-82 | The list is empty; nothing else changes |
| FileItems.ConversionState.UpdateStatus | EncoreConverter/FileItem.swift:84-88 | The list becomes the value update of the first item with the id; nothing else changes |
| FileItems.ConversionState.ResetAll | EncoreConverter/FileItem.swift:90-95 | Every status becomes Pending, the ids, paths and order stay, and the cancel flag is cleared (loop invariant over the indices) |
| FileItems.ConversionState.CancelConversion | EncoreConverter/FileItem.swift:97-99 | The cancel flag is raised; nothing else changes |
| Strings.ToLower | EncoreConverter/FileItem.swift:68 | Lower-cases each character of a text (ASCII letters); `FileItems.LowersToEnc` states which extensions lower-case to "enc" |
| Strings.IntDecimalRoundTrip | EncoreConverter/ConversionEngine.swift:40 | Reading back the rendered exit code gives the exit code, with its sign |
| Strings.Trim | EncoreConverter/DependencyChecker.swift:81 | The result is the middle of the text; only white space comes before and after it, and it neither starts nor ends with white space |
| Strings.TrimEmptyIff | EncoreConverter/DependencyChecker.swift:81-82 | Trimming leaves nothing exactly when the text is all white space |
| Strings.TrimIdempotent | EncoreConverter/DependencyChecker.swift:81 | Trimming a trimmed text changes nothing |
| Paths.LastComponent | EncoreConverter/ConversionEngine.swift:16 | The result is the longest suffix of the path that holds no '/' |
| Paths.PathExtension | EncoreConverter/FileItem.swift:68 | `pathExtension`: what follows the last '.' of the last component; `SplitLastComponent` states it holds no '.' or '/' |
| Paths.BaseName | EncoreConverter/ConversionEngine.swift:16 | `deletingPathExtension().lastPathComponent`; `SplitLastComponent` and `NameWithExtension` characterise it |
| Paths.AppendingComponent | EncoreConverter/ConversionEngine.swift:17-18 | `appendingPathComponent`: one '/' between directory and name; `LastComponentOfAppended` characterises it |
| Paths.SplitLastComponent | EncoreConverter/ConversionEngine.swift:16 | The last component is the base name plus "." plus the extension (just the base name when there is no '.'); neither part holds a '/', and the extension holds no '.' |
| Paths.LastComponentOfAppended | EncoreConverter/ConversionEngine.swift:17-18 | Appending a name without '/' to a directory gives a path whose last component is that name |
| Paths.NameWithExtension | EncoreConverter/ConversionEngine.swift:16-18 | `<dir>/<base><.ext>` has the last component `<base><.ext>`, the base name `<base>` and the extension `ext` |
| ConversionEngine.IntermediatePath | EncoreConverter/ConversionEngine.swift:17 | `<out>/<base>.ly`; `DerivedPaths` states its name and extension |
| ConversionEngine.FinalPath | EncoreConverter/ConversionEngine.swift:18 | `<out>/<base>.musicxml`; `DerivedPaths` states its name and extension and that it differs from the `.ly` path |
| ConversionEngine.Enc2LyInvocation | EncoreConverter/ConversionEngine.swift:34-37 | go-enc2ly started with the source path as its only argument; `Enc2LyPassesIff` states it is the one process of stage 1 |
| ConversionEngine.Ly2MusicXmlInvocation | EncoreConverter/ConversionEngine.swift:58-61 | python3 with `-m ly musicxml <ly> -o <musicxml>`; `Stage2Arguments` states it |
| ConversionEngine.SpawnFailureMessage | EncoreConverter/ConversionEngine.swift:116 | "No se pudo ejecutar <path>: <reason>"; `Stage1SpawnFailure` states when it is the result |
| Paths.AppendingKeepsDirectory | EncoreConverter/ConversionEngine.swift:17-18 | Appending a non-empty name keeps the directory as a proper prefix of the path |
| ConversionEngine.ExitCodeText | EncoreConverter/ConversionEngine.swift:40 | "Exit code " and the decimal exit code; `Strings.IntDecimalRoundTrip` states the rendering reads back |
| ConversionEngine.Enc2LyFailedMessage | EncoreConverter/ConversionEngine.swift:39-41 | "go-enc2ly error: " and stderr, or the exit code when stderr is empty; `Stage1ExitFailure` states when it is the result |
| ConversionEngine.Enc2LyEmptyMessage | EncoreConverter/ConversionEngine.swift:44-46 | "go-enc2ly no genero salida: " and stderr, or "No output produced"; `Stage1EmptyOutput` states when it is the result |
| ConversionEngine.Ly2MusicXmlFailedMessage | EncoreConverter/ConversionEngine.swift:63-67 | "ly musicxml error: " and stderr, else stdout, else the exit code; `Stage2ExitFailure` states when it is the result |
| ConversionEngine.Ly2MusicXmlNoOutputMessage | EncoreConverter/ConversionEngine.swift:71-74 | "ly musicxml: " and stdout, or "Archivo de salida no generado"; `Stage2MissingOutput` states when it is the result |
| ConversionEngine.RemovedBestEffort | EncoreConverter/ConversionEngine.swift:27 | The path is gone when removal succeeds, else the filesystem is unchanged; `SucceedsIff` and `CleanupNeverChangesResult` state its effect |
| ConversionEngine.Enc2Ly | EncoreConverter/ConversionEngine.swift:32-54 | Reference definition of stage 1: spawn, exit-code guard, empty-output guard, write of stdout to the `.ly` path; `Enc2LyPassesIff` and the Stage1 lemmas state its outcomes |
| ConversionEngine.Ly2MusicXml | EncoreConverter/ConversionEngine.swift:56-76 | Reference definition of stage 2: spawn, exit-code guard, existence check of the output file; the Stage2 lemmas state its outcomes |
| ConversionEngine.Pipeline | EncoreConverter/ConversionEngine.swift:15-30 | Reference definition of `convert` on the two derived paths; `DerivedPaths` states those paths |
| ConversionEngine.ConvertVia | EncoreConverter/ConversionEngine.swift:20-29 | Stage 1, then stage 2, then the best-effort removal, for given `.ly` and `.musicxml` paths; `SucceedsIff` and the Stage lemmas state its outcomes |
| ConversionEngine.RunEnc2Ly | EncoreConverter/ConversionEngine.swift:32-54 | The guard chain of stage 1 (spawn, exit code, empty output, write) gives exactly the stage-1 function's error, filesystem and processes |
| ConversionEngine.RunLy2MusicXML | EncoreConverter/ConversionEngine.swift:56-76 | The guard chain of stage 2 (spawn, exit code, output exists) gives exactly the stage-2 function's error, filesystem and processes |
| ConversionEngine.Convert | EncoreConverter/ConversionEngine.swift:15-30 | The method gives exactly the pipeline's result, filesystem and processes on the two derived paths |
| ConversionEngine.DerivedPaths | EncoreConverter/ConversionEngine.swift:16-18 | The `.ly` and `.musicxml` paths start with the output folder, are named after the source's base name with the extensions "ly" and "musicxml", and they differ |
| ConversionEngine.SameBaseNameSamePaths | EncoreConverter/ConversionEngine.swift:16-18 | Two sources with the same base name use the same `.ly` and `.musicxml` paths in a given output folder |
| ConversionEngine.NamedInDirectory | EncoreConverter/ConversionEngine.swift:16-18 | A file named after the source's base name plus a suffix, in the output folder, has that base name and the suffix's extension |
| ConversionEngine.Enc2LyPassesIff | EncoreConverter/ConversionEngine.swift:34-53 | Stage 1 passes exactly when go-enc2ly ran, exited with 0, printed something and the write succeeded; the `.ly` file then holds exactly what it printed; go-enc2ly is started once, on the source path |
| ConversionEngine.Stage1ExitFailure | EncoreConverter/ConversionEngine.swift:39-42 | A nonzero exit of go-enc2ly fails with "go-enc2ly error: " and its stderr, or the exit code when stderr is empty; python3 is never started |
| ConversionEngine.Stage1EmptyOutput | EncoreConverter/ConversionEngine.swift:44-47 | Exit 0 with empty stdout fails with "go-enc2ly no genero salida: " and stderr, or "No output produced"; python3 is never started |
| ConversionEngine.Stage1SpawnFailure | EncoreConverter/ConversionEngine.swift:113-117 | When go-enc2ly cannot be started, the conversion fails with "No se pudo ejecutar <path>: <reason>", touches no file, and starts nothing else |
| ConversionEngine.Stage2SpawnFailure | EncoreConverter/ConversionEngine.swift:58-61 | When python3 cannot be started after stage 1 passed, the conversion fails with "No se pudo ejecutar <python3 path>: <reason>", both processes were started, and the filesystem is the one stage 1 left |
| ConversionEngine.Stage2Arguments | EncoreConverter/ConversionEngine.swift:58-61 | After stage 1 passes, python3 is started with exactly `-m ly musicxml <ly> -o <musicxml>`, and the `.ly` file then holds go-enc2ly's output |
| ConversionEngine.Stage2ExitFailure | EncoreConverter/ConversionEngine.swift:63-68 | A nonzero exit of stage 2 fails with "ly musicxml error: " and stderr, else stdout, else the exit code; the `.ly` file is not removed |
| ConversionEngine.Stage2MissingOutput | EncoreConverter/ConversionEngine.swift:70-75 | Exit 0 from stage 2 without a `.musicxml` file fails with "ly musicxml: " and stdout, or "Archivo de salida no generado"; the `.ly` file is not removed |
| ConversionEngine.SucceedsIff | EncoreConverter/ConversionEngine.swift:15-30 | Success exactly when stage 1 passed, stage 2 exited with 0 and the output file exists. It then returns the `.musicxml` path and both processes were started in order. The `.ly` file is removed when its removal succeeds; otherwise the filesystem is as stage 2 left it. The `.musicxml` file remains |
| ConversionEngine.CleanupNeverChangesResult | EncoreConverter/ConversionEngine.swift:26-29 | Whether removing the `.ly` file succeeds changes neither the result nor the processes started |
| ConversionEngine.FailureKeepsIntermediate | EncoreConverter/ConversionEngine.swift:21-27 | A failed conversion removes nothing: the filesystem is the one the failing stage left |
| DependencyChecker.DependencyStatus.GoEnc2lyAvailable | EncoreConverter/DependencyChecker.swift:8 | go-enc2ly was located; `AllInstalledIff` unfolds it |
| DependencyChecker.DependencyStatus.PythonLyAvailable | EncoreConverter/DependencyChecker.swift:9 | python3 was located and python-ly answered; `AllInstalledIff` unfolds it |
| DependencyChecker.CommonPaths | EncoreConverter/DependencyChecker.swift:47-54 | The six probe paths in the source's order; `LocatedPrefersCommonPaths` and `LocatedFallsBackToWhich` are stated over them |
| DependencyChecker.WhichInvocation | EncoreConverter/DependencyChecker.swift:68-69 | `/bin/zsh -l -c "which <name>"`; `WhichExecutable` states it is the one process started |
| DependencyChecker.VersionInvocation | EncoreConverter/DependencyChecker.swift:31-32 | python3 with `-m ly --version`; `CheckPythonLy` and `LyAnswersIff` are stated over it |
| DependencyChecker.DependencyStatus.AllInstalled | EncoreConverter/DependencyChecker.swift:8-10 | Reference definition of `allInstalled` through the two derived availabilities; `AllInstalledIff` unfolds it |
| DependencyChecker.Located | EncoreConverter/DependencyChecker.swift:45-64 | Reference definition of `findExecutable`: the first executable common path, else `which`'s answer; `LocatedPrefersCommonPaths` and `LocatedFallsBackToWhich` state both cases |
| DependencyChecker.WhichAnswer | EncoreConverter/DependencyChecker.swift:79-90 | Reference definition of what `whichExecutable` reads from the shell; `WhichAnswerIff` characterises it |
| DependencyChecker.LyAnswers | EncoreConverter/DependencyChecker.swift:27-43 | Reference definition of `checkPythonLy`; `LyAnswersIff` characterises it |
| DependencyChecker.Checked | EncoreConverter/DependencyChecker.swift:15-24 | Reference definition of `check`; `CheckedConsistent` states how its three fields relate |
| DependencyChecker.AllInstalledIff | EncoreConverter/DependencyChecker.swift:8-10 | allInstalled holds exactly when both paths are present and python-ly is installed |
| DependencyChecker.FirstExecutable | EncoreConverter/DependencyChecker.swift:56-60 | The result is the first executable path, with every earlier path not executable, or none exactly when no path is executable |
| DependencyChecker.WhichAnswerIff | EncoreConverter/DependencyChecker.swift:79-90 | `which` names a path exactly when the shell exited with 0 and printed something other than white space; the path is the printed text without its surrounding white space |
| DependencyChecker.LocatedPrefersCommonPaths | EncoreConverter/DependencyChecker.swift:47-60 | When some common path is executable, the result is the first executable common path at or before it, and the shell's answer is ignored |
| DependencyChecker.LocatedFallsBackToWhich | EncoreConverter/DependencyChecker.swift:62-63 | When no common path is executable, the result is exactly `which`'s answer |
| DependencyChecker.WhichExecutable | EncoreConverter/DependencyChecker.swift:66-91 | Runs `/bin/zsh -l -c "which <name>"` once and returns the trimmed answer, or none on a spawn failure, a nonzero exit or an empty answer |
| DependencyChecker.FindExecutable | EncoreConverter/DependencyChecker.swift:45-64 | The loop returns the located path; the shell is started only when no common path matched |
| DependencyChecker.CheckPythonLy | EncoreConverter/DependencyChecker.swift:27-43 | False with no process started when python3 is missing; otherwise true exactly when `-m ly --version` started and exited with 0 |
| DependencyChecker.LyAnswersIff | EncoreConverter/DependencyChecker.swift:27-43 | The version query answers only for a located python3 that started and exited with 0; a spawn failure gives false |
| DependencyChecker.Check | EncoreConverter/DependencyChecker.swift:15-24 | The status holds the two located paths, and the library answer for exactly the located python3; the processes started are the go-enc2ly lookup's, then the python3 lookup's, then the version query |
| DependencyChecker.CheckedConsistent | EncoreConverter/DependencyChecker.swift:15-24 | pythonLyInstalled implies that python3 was located and answered. All tools are ready exactly when both executables were located and that python3 answered |
| ContentView.CanConvert | EncoreConverter/ContentView.swift:268-273 | Reference definition of `canConvert`; `CanConvertPassesGuard` relates it to the guard of `startConversion` |
| ContentView.EngineFor | EncoreConverter/ContentView.swift:315-324 | Reference definition of the guard and the engine it builds; `EngineForIff` characterises it |
| ContentView.Verdict | EncoreConverter/ContentView.swift:343-355 | Reference definition of the status a converted file ends in; `VerdictIff` characterises it |
| ContentView.ConverterFor | EncoreConverter/ContentView.swift:321-324 | The converter the run uses: the engine built from the located paths, converting into the chosen folder; `StartConversion` and `RunTask` are stated with it |
| ContentView.RunFrom | EncoreConverter/ContentView.swift:327-356 | Reference definition of the loop from index `i` on; the Run lemmas below state its properties, and `RunTask` is proved equal to it |
| ContentView.EngineForIff | EncoreConverter/ContentView.swift:315-324 | The guard admits a run exactly when both paths are present, python-ly is installed and a folder is chosen. The engine then uses exactly the located paths, so the forced unwraps never fail |
| ContentView.CanConvertPassesGuard | EncoreConverter/ContentView.swift:268-273 | canConvert holds exactly when there are files, no run is going on and the guard admits a run; a missing status counts as not installed |
| ContentView.VerdictIff | EncoreConverter/ContentView.swift:343-355 | Every verdict is Done or Error; it is Done exactly on success, even after a cancel; a failure shows the cancel message when cancelled and the error's text otherwise |
| ContentView.StopIndex | EncoreConverter/ContentView.swift:327-338 | The index where the loop stops, between its start and the list's end; `StopIndexIsFirstSeen` states it is the first index with the flag up |
| ContentView.StopIndexIsFirstSeen | EncoreConverter/ContentView.swift:327-338 | The loop stops at the first index where the list ends or the cancel flag is up at the top of the iteration |
| ContentView.RunKeepsItems | EncoreConverter/ContentView.swift:326-356 | A run keeps the length, every id and path, and the items from the stop index on |
| ContentView.RunProcessesVisited | EncoreConverter/ContentView.swift:340-355 | Every visited file ends Done or Error |
| ContentView.RunLogLength | EncoreConverter/ContentView.swift:341-355 | A run makes two status changes per visited file |
| ContentView.RunLogConverting | EncoreConverter/ContentView.swift:340-341 | Each visited file, in index order, is first marked Converting |
| ContentView.RunLogVerdicts | EncoreConverter/ContentView.swift:348-354 | The second change for each visited file, in index order, sets the status that file ends the run with |
| ContentView.RunLogIds | EncoreConverter/ContentView.swift:327-356 | Every status change names a visited file, and the changes come in index order |
| ContentView.RunCancelFlag | EncoreConverter/ContentView.swift:329-338 | The cancel flag after a run is the one seen at the stop index |
| ContentView.FirstVerdict | EncoreConverter/ContentView.swift:343-355 | The first visited file gets the verdict on its own conversion, run on the starting filesystem |
| ContentView.NoCancelProcessesAll | EncoreConverter/ContentView.swift:326-358 | Without a cancel, every file ends Done or Error (processedCount equals the list length), and the flag stays down |
| ContentView.LaterFilesUntouched | EncoreConverter/ContentView.swift:329-338 | Files from the stop index on keep their item, and no status change ever names them |
| ContentView.CancelledRestPending | EncoreConverter/ContentView.swift:318-338 | On the reset list, files from the stop index on stay Pending and are never marked Converting |
| ContentView.StartConversion | EncoreConverter/ContentView.swift:314-359 | Nothing changes when the guard fails. Otherwise the state, filesystem and status changes are the run over the reset list, with the cancel press before the first file, and the run flag ends down |
| ContentView.RunTask | EncoreConverter/ContentView.swift:326-358 | The loop with its break on the cancel flag leaves the list, flag, filesystem and status changes that `RunFrom` gives, and then lowers the run flag |
| ContentView.ConvertFile | EncoreConverter/ContentView.swift:340-355 | File `i` is marked Converting, converted, and given its verdict; only that item changes, and the cancel flag is the press during its conversion |

## Left out

- The SwiftUI views, the status icons and colours, the open panels, drag and drop and the application entry point are not modelled: they are presentation.
- `runProcess`, `Process`, pipes and the continuation are replaced by `World.run` and `Shell`. Each returns either a spawn failure with its description or the captured stdout, stderr and an `Int32` exit code.
- Concurrency is not modelled: the `Task`, `async`/`await` and the main actor become one sequential loop. Cancel presses are inputs that take effect before the first file and while a file converts. Those are the only points where the main actor can run them.
- Files added during a run are not modelled. In the application, rows cannot be removed and the list cannot be cleared while a run is on (EncoreConverter/ContentView.swift:116-119, 128-131), but "Anadir archivos" and the drop zone stay active. The loop's index range is fixed when it starts, so files added mid-run are never visited and stay Pending. `ContentView.NoCancelProcessesAll`'s `ProcessedCount == |files|` is therefore a property of the list the run started with.
- The inner `for j` loop at the cancel check reads the remaining files and changes nothing, so it is not modelled.
- Invalid UTF-8 is not modelled: process output is a string. So the "go-enc2ly produjo datos invalidos" branch and the `nil` of `whichExecutable` on undecodable output do not appear.
- Paths are plain strings with '/' and '.' handling. Foundation URL details (trailing slashes, names that start with '.', standardisation) are not modelled.
- `Strings.ToLower` only lower-cases ASCII letters, where `lowercased()` covers all of Unicode.
- UUIDs are modelled by a counter, `nextId`; ids handed out are distinct by construction.
- `NSHomeDirectory()` is a parameter, and `isExecutableFile(atPath:)` is a predicate on paths.
- `Data.write(to:)` and `removeItem(at:)` are oracles in `World`; `fileExists(atPath:)` is membership in the filesystem value.
- The error a failed write throws is its description, taken from `World.writeError`.
- The progress-bar `Double` values and the summary texts of the view are not modelled.
