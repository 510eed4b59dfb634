/** What the program observes of a child process (`std::process::ExitStatus`). */
module Process {
  import opened Wrappers

  /** A child either exits with a code or is ended by a signal, in which case it has no code. */
  datatype ExitStatus = Exited(exitCode: int) | Killed {

    /** `ExitStatus::success`: the child exited with code zero. */
    predicate Success() {
      Exited? && exitCode == 0
    }

    /** `ExitStatus::code`: the exit code, absent for a child ended by a signal. */
    function Code(): (c: Option<int>)
      ensures c.Some? <==> Exited?
      ensures Success() ==> c == Some(0)
    {
      if Exited? then Some(exitCode) else None
    }
  }
}
