/** What the outside world answers when the router launches a process or opens a
    connection. Backends are not run: each call's outcome is an input. */
module Outcomes {
  import opened Text

  newtype Byte = b: int | 0 <= b < 256

  /** A `subprocess.run(..., timeout=...)` or `Popen(...).communicate(timeout=...)`:
      the process exited with a code and its captured output, or the timeout fired
      (`TimeoutExpired`), or any other exception was raised; `detail` is `str(e)`. */
  datatype RunOutcome =
    | Completed(code: int, stdout: string, stderr: string)
    | TimedOut(detail: string)
    | Faulted(detail: string)
  {
    /** Exit code 0 with output that is not all whitespace. */
    predicate Succeeded() {
      Completed? && code == 0 && !IsBlank(stdout)
    }
  }
}
