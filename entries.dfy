/** The record a launched application reports for one timed span of its
    JavaScript module loading. The plugin stores these records as they are
    and never interprets their numeric fields. */
module Entries {

  datatype Option<T> = None | Some(value: T)

  /** Whether the record stems from a `performance.mark` or a `performance.measure`. */
  datatype EntryType = Mark | Measure

  /** One performance log entry. `startTime` and `duration` stand for the
      JavaScript numbers the application sends; nothing in the plugin computes
      with them. `detail` is an untyped payload, kept as an opaque text. */
  datatype LogEntry = LogEntry(
    name: string,
    entryType: EntryType,
    startTime: real,
    duration: real,
    detail: Option<string>,
    isBase: bool)
}
