/** Date values as the driver sees them: an instant (Unix seconds) and the name of the
    time zone it is expressed in. Calendar arithmetic is not modelled. */
module Dates {

  datatype DateTime = DateTime(timestamp: int, zone: string)

  /** Zone name PHP gives a DateTime built from an "@<timestamp>" string; the zone
      argument passed alongside such a string is ignored. */
  const UnixOffsetZone: string := "+00:00"

  /** `new DateTime('@' . $ts, ...)`: the instant `ts`, in the zone "+00:00". */
  function FromTimestamp(ts: int): DateTime
  {
    DateTime(ts, UnixOffsetZone)
  }

  /** `setTimezone`: the same instant, re-expressed in `zone`. */
  function SetTimezone(d: DateTime, zone: string): DateTime
  {
    d.(zone := zone)
  }
}
