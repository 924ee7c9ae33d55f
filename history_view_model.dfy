/** The view model behind the monitor's screens: the activity log, the status
    line, the newest sensor readings and the gate state, updated in place. */
module ViewModel {
  import opened LogHistory
  import opened GateModel

  class HistoryViewModel {
    var logs: seq<LogEntry>
    var lastStatusMessage: string
    var lastStatusTime: string
    var lastDistance1: real
    var lastDistance2: real
    var lastLdr: real
    var isGateOpen: bool
    /** Every notification raised so far, oldest first; stands for the calls
        to the platform's notification service. */
    ghost var notifications: seq<Notification>

    /** The view model's fields as one value. */
    ghost function Model(): State
      reads this
    {
      State(logs, lastStatusMessage, lastStatusTime,
            lastDistance1, lastDistance2, lastLdr, isGateOpen, notifications)
    }

    /** The invariant every method keeps: the log is within its cap and the
        status line shows the newest entry. */
    ghost predicate Valid()
      reads this
    {
      WellFormed(Model())
    }

    /** A new view model: empty log, gate closed, readings zero, and a status
        line that says it is waiting. */
    constructor ()
      ensures Valid() && Alternating(Model())
      ensures Model() == Initial()
    {
      logs := [];
      lastStatusMessage := WaitingMessage;
      lastStatusTime := NoTime;
      lastDistance1, lastDistance2, lastLdr := 0.0, 0.0, 0.0;
      isGateOpen := false;
      notifications := [];
    }

    /** Writes (time, message) as the newest log entry, dropping the oldest
        one once the log holds LogCap entries, and shows it in the status
        line. The log may stop alternating: the message is arbitrary. */
    method AddLog(time: string, message: string)
      modifies this
      ensures Valid()
      ensures Model() == WithLog(old(Model()), time, message)
    {
      var newLog := LogEntry(time, message);
      var updated := [newLog] + logs;
      if |updated| > LogCap {
        logs := updated[..LogCap];
      } else {
        logs := updated;
      }
      lastStatusMessage := message;
      lastStatusTime := time;
    }

    /** Empties the log and says so in the status line. */
    method ClearLogs()
      modifies this
      ensures Valid() && Alternating(Model())
      ensures Model() == Cleared(old(Model()))
    {
      logs := [];
      lastStatusMessage := ClearedMessage;
      lastStatusTime := NoTime;
    }

    /** Stores a new set of readings and moves the gate to the detection
        result; a change writes one log entry, and an opening also raises a
        notification. */
    method UpdateDataAndCheckNotification(d1: real, d2: real, ldr: real, time: string)
      requires Valid()
      modifies this
      ensures Valid()
      ensures old(Alternating(Model())) ==> Alternating(Model())
      ensures Model() == AfterReading(old(Model()), d1, d2, ldr, time)
    {
      ghost var before := Model();
      lastDistance1 := d1;
      lastDistance2 := d2;
      lastLdr := ldr;

      var sensorDetectsObject := DetectsObject(d1, d2);

      if sensorDetectsObject && !isGateOpen {
        var msg := OpenMessage;
        AddLog(time, msg);
        notifications := notifications + [Notification(NotificationTitle, msg)];
        isGateOpen := true;
      } else if !sensorDetectsObject && isGateOpen {
        var msg := CloseMessage;
        AddLog(time, msg);
        isGateOpen := false;
      }
      if Alternating(before) {
        AfterReadingAlternating(before, d1, d2, ldr, time);
      }
    }
  }
}
