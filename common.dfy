/** Small value types shared by every module of the model. */
module Common {

  /** Ruby's `nil` or a value; Go's zero-or-error results use their own types. */
  datatype Option<T> = None | Some(value: T) {
    function GetOr(default: T): T {
      match this
      case Some(v) => v
      case None => default
    }
  }

  /** Wall-clock time is an input of the model, in seconds. */
  type Timestamp = int

  /** Sidekiq's `5.minutes`, the delay of the per-event reconciliation jobs. */
  const ScheduleDelaySeconds: nat := 300
}
