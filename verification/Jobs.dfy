/** The statuses of a job row, which several components share. */
module Jobs {
  datatype JobStatus =
    | JobQueued | JobRunning | InputRequired | AuthRequired
    | JobCompleted | JobFailed | JobCanceled | PausedByLoopGuard
}
