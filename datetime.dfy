/** Conversions between JavaScript millisecond timestamps and whole UTC seconds
    (src/utils/datetime.ts). A `Date` is represented by its millisecond timestamp. */
module DateTime {

  /** `dateToUTCTimestamp(date)`: `Math.floor(ms / 1000)`, rounding toward negative
      infinity also before 1970. */
  function DateToUtcTimestamp(ms: int): (seconds: int)
    ensures seconds * 1000 <= ms < seconds * 1000 + 1000
  {
    ms / 1000
  }

  /** `nowToUTCTimestamp()`, with the clock reading passed in. */
  function NowToUtcTimestamp(now: int): (seconds: int)
    ensures seconds * 1000 <= now < seconds * 1000 + 1000
  {
    DateToUtcTimestamp(now)
  }

  /** `utcTimestampToLocalDate(seconds)`: the millisecond timestamp `seconds * 1000`. */
  function UtcTimestampToLocalDate(seconds: int): (ms: int)
    ensures ms % 1000 == 0 && ms / 1000 == seconds
  {
    seconds * 1000
  }

  /** Seconds to date and back is the identity. */
  lemma SecondsRoundTrip(seconds: int)
    ensures DateToUtcTimestamp(UtcTimestampToLocalDate(seconds)) == seconds
  {
  }

  /** Date to seconds and back drops the sub-second milliseconds and nothing else. */
  lemma DateRoundTrip(ms: int)
    ensures var back := UtcTimestampToLocalDate(DateToUtcTimestamp(ms));
      back <= ms < back + 1000 && back % 1000 == 0
  {
  }

  /** Floor, not truncation: one millisecond before the epoch is second -1. */
  lemma FloorBeforeEpoch()
    ensures DateToUtcTimestamp(-1) == -1
    ensures DateToUtcTimestamp(-1000) == -1
    ensures DateToUtcTimestamp(-1001) == -2
  {
  }
}
