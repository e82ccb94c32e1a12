/** The outcome the in-browser authentication reports back to the partner-auth pane. */
module WebAuthFlow {
  import opened Wrappers

  datatype WebAuthFlowState =
    | Uninitialized
    | InProgress
    | Canceled
    | Failed(message: string, reason: Option<string>)
    | Success
}
