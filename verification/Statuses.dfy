/** Conversation statuses as the services exchange them. */
module Statuses {

  datatype Status =
    | Running
    | AwaitingUserInput
    | Finished
    | Closed
    | Stopped
    | Errored
    | Other(name: string)   // any status the services do not know, in upper case

  /** No further update is expected after these. */
  predicate Terminal(s: Status) {
    s.Closed? || s.Stopped? || s.Errored? || s.Finished?
  }
}
