/** The activity log of the gate monitor: timestamped entries, newest first,
    kept to a fixed maximum length. */
module LogHistory {

  /** One line of the activity log: the wall-clock time it was written
      (already formatted as "HH:mm:ss") and its message. */
  datatype LogEntry = LogEntry(time: string, message: string)

  /** The log never holds more than this many entries. */
  const LogCap: nat := 50

  function Min(a: int, b: int): int {
    if a <= b then a else b
  }

  /** The log after `entry` is added: the entry goes in front of the old log
      and whatever lies beyond the cap is cut off. */
  function Prepend(entry: LogEntry, logs: seq<LogEntry>): (r: seq<LogEntry>)
    ensures |r| == Min(|logs| + 1, LogCap)
    ensures r[0] == entry
    ensures r[1..] == logs[..|r| - 1]
  {
    var updated := [entry] + logs;
    if |updated| > LogCap then updated[..LogCap] else updated
  }

  /** An old entry survives the addition of a new one exactly when fewer than
      LogCap - 1 entries stand before it, and it then moves back by one. */
  lemma PrependShifts(entry: LogEntry, logs: seq<LogEntry>, i: nat)
    requires i < |logs|
    ensures i + 1 < |Prepend(entry, logs)| <==> i < LogCap - 1
    ensures i < LogCap - 1 ==> Prepend(entry, logs)[i + 1] == logs[i]
  {
    var r := Prepend(entry, logs);
    if i < LogCap - 1 {
      assert r[1..][i] == logs[i];
    }
  }
}
