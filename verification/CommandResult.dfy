/** How a supervised command ended, as the supervisor reports it and the model is told. */
module CommandResult {
  datatype ExitCause = Exited(code: int) | Signaled(signal: int) | TimedOut | Cancelled
}
