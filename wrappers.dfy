/** Result and Outcome values for the errors RecMetric raises, and the error kinds themselves. */
module Wrappers {

  /** The exceptions the metric raises, each under the Python name it is raised with. */
  datatype MetricError =
    | ValueError    // update called with an argument count other than 2
    | IndexError    // more ground-truth lengths than ground-truth texts
    | RuntimeError  // eval called before any sample was accumulated

  datatype Option<+T> = None | Some(value: T)

  /** A value, or the error raised instead of producing it. */
  datatype Result<+R> = Success(value: R) | Failure(error: MetricError)

  /** Completion of a call that returns nothing, or the error it raised. */
  datatype Outcome = Pass | Fail(error: MetricError)
}
