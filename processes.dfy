/** What a run of an external executable looks like from the outside. */
module Processes {

  /** A process's `terminationStatus`, a Swift `Int32`. */
  type ExitCode = x: int | -0x8000_0000 <= x < 0x8000_0000

  /** The executable and the argument vector a process is started with. */
  datatype Invocation = Invocation(executable: string, arguments: seq<string>)

  /** Captured standard output, standard error and exit status of a process that ran to completion. */
  datatype ProcessResult = ProcessResult(stdout: string, stderr: string, exitCode: ExitCode)

  /** Either the process could not be started at all (`Process.run()` threw, with this description),
      or it ran and terminated with the captured result. */
  datatype Spawn = SpawnFailed(description: string) | Exited(result: ProcessResult)

  /** True when the process started and exited with status 0. */
  predicate ExitedWithZero(s: Spawn) {
    s.Exited? && s.result.exitCode == 0
  }
}
