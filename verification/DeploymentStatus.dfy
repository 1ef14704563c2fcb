/** The status of a deployment row. A queued row counts as in progress: it has not ended. */
module DeploymentStatus {
  datatype Status = InProgress | Finished | Failed | Cancelled {
    predicate Ended() {
      !InProgress?
    }
  }
}
