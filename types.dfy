/** The values that flow through the pipeline (internal/types). Timestamps are
    integer nanoseconds since the Unix epoch; byte payloads are sequences of
    `byte`. */
module Types {

  newtype byte = x: int | 0 <= x < 256

  type Bytes = seq<byte>

  const Newline: byte := 10

  /** One parsed access-log record: field name to raw value, and its instant. */
  datatype LogEntry = LogEntry(data: map<string, string>, timestamp: int)

  /** An object in the store, identified by bucket and key. */
  datatype S3ObjectInfo = S3ObjectInfo(bucket: string, key: string)

  /** `Time.UnixMilli`: whole milliseconds, rounded towards minus infinity. */
  function UnixMilli(ns: int): (ms: int)
    ensures ms * 1_000_000 <= ns < (ms + 1) * 1_000_000
  {
    ns / 1_000_000
  }

  /** `Time.Unix`: whole seconds, rounded towards minus infinity. */
  function UnixSeconds(ns: int): (s: int)
    ensures s * 1_000_000_000 <= ns < (s + 1) * 1_000_000_000
  {
    ns / 1_000_000_000
  }
}
