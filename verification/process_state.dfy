/** The lifecycle of a managed process. */
module Processes {
  datatype ProcessState = Pending | Starting | Running | Paused | Stopping
    | Exited | Crashed | Restarting | Unsupervised | Blocked
}
