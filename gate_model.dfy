/** The state of the gate monitor as a value, and the operations on it as
    functions. The view model class is proved against these; the lemmas here
    state what a whole sequence of sensor readings does to the state. */
module GateModel {
  import opened LogHistory

  const WaitingMessage := "Menunggu Aktivitas..."
  const ClearedMessage := "Riwayat Dihapus"
  const NoTime := "-"
  const OpenMessage := "Palang Terbuka (Otomatis)"
  const CloseMessage := "Palang Tertutup (Otomatis)"
  const NotificationTitle := "Sistem Palang Pintu"

  /** A distance reading detects an object when it lies in (0, DetectionRange]. */
  const DetectionRange: real := 50.0

  /** A call to the platform's notification helper (title and text); whether
      the platform then shows anything is not part of this model. */
  datatype Notification = Notification(title: string, text: string)

  const OpenNotification := Notification(NotificationTitle, OpenMessage)

  /** Everything the view model holds. `notifications` records, in order, every
      call the monitor has made to show a notification. */
  datatype State = State(
    logs: seq<LogEntry>,
    lastStatusMessage: string,
    lastStatusTime: string,
    lastDistance1: real,
    lastDistance2: real,
    lastLdr: real,
    isGateOpen: bool,
    notifications: seq<Notification>)

  /** One poll: the two distances, the light level and the time it arrived. */
  datatype Tick = Tick(d1: real, d2: real, ldr: real, time: string)

  predicate InRange(d: real) {
    0.0 < d <= DetectionRange
  }

  predicate DetectsObject(d1: real, d2: real) {
    InRange(d1) || InRange(d2)
  }

  predicate TickDetects(t: Tick) {
    DetectsObject(t.d1, t.d2)
  }

  /** The message written to the log when the gate turns to `open`. */
  function GateMessage(open: bool): string {
    if open then OpenMessage else CloseMessage
  }

  /** The invariant every operation keeps: the log is within its cap, and the
      status line shows the newest entry whenever there is one. */
  predicate WellFormed(s: State) {
    |s.logs| <= LogCap &&
    (s.logs != [] ==> s.lastStatusMessage == s.logs[0].message && s.lastStatusTime == s.logs[0].time)
  }

  /** The state of a freshly created view model. */
  function Initial(): State {
    State([], WaitingMessage, NoTime, 0.0, 0.0, 0.0, false, [])
  }

  /** addLog: the entry (time, message) becomes the newest one, the oldest
      entry falls off when the log was full, and the status line shows the
      new entry. */
  function WithLog(s: State, time: string, message: string): (r: State)
    ensures WellFormed(r)
    ensures |s.logs| < LogCap ==> |r.logs| == |s.logs| + 1
    ensures |s.logs| >= LogCap ==> |r.logs| == LogCap
    ensures r.logs[0] == LogEntry(time, message)
    ensures r.logs[1..] == s.logs[..|r.logs| - 1]
    ensures r.lastStatusMessage == message && r.lastStatusTime == time
    ensures r.(logs := s.logs, lastStatusMessage := s.lastStatusMessage, lastStatusTime := s.lastStatusTime) == s
  {
    s.(logs := Prepend(LogEntry(time, message), s.logs),
       lastStatusMessage := message,
       lastStatusTime := time)
  }

  /** clearLogs: the log is emptied and the status line says so; the gate and
      the readings are left as they were. */
  function Cleared(s: State): (r: State)
    ensures WellFormed(r)
    ensures r.logs == [] && r.lastStatusMessage == ClearedMessage && r.lastStatusTime == NoTime
    ensures r.isGateOpen == s.isGateOpen && r.notifications == s.notifications
    ensures r.lastDistance1 == s.lastDistance1 && r.lastDistance2 == s.lastDistance2 && r.lastLdr == s.lastLdr
  {
    s.(logs := [], lastStatusMessage := ClearedMessage, lastStatusTime := NoTime)
  }

  /** updateDataAndCheckNotification: the readings are stored, the gate
      follows the detection result, and a change of the gate (and only a
      change) writes one log entry; only opening raises a notification. */
  function AfterReading(s: State, d1: real, d2: real, ldr: real, time: string): (r: State)
    ensures r.lastDistance1 == d1 && r.lastDistance2 == d2 && r.lastLdr == ldr
    ensures r.isGateOpen <==> DetectsObject(d1, d2)
    ensures WellFormed(s) ==> WellFormed(r)
    ensures r.isGateOpen == s.isGateOpen ==>
      r.logs == s.logs && r.notifications == s.notifications &&
      r.lastStatusMessage == s.lastStatusMessage && r.lastStatusTime == s.lastStatusTime
    ensures r.isGateOpen != s.isGateOpen ==>
      |r.logs| == Min(|s.logs| + 1, LogCap) &&
      r.logs[0] == LogEntry(time, GateMessage(r.isGateOpen)) &&
      r.logs[1..] == s.logs[..|r.logs| - 1] &&
      r.lastStatusMessage == GateMessage(r.isGateOpen) && r.lastStatusTime == time
    ensures r.notifications ==
      if r.isGateOpen && !s.isGateOpen then s.notifications + [OpenNotification] else s.notifications
  {
    var stored := s.(lastDistance1 := d1, lastDistance2 := d2, lastLdr := ldr);
    var detects := DetectsObject(d1, d2);
    if detects && !stored.isGateOpen then
      WithLog(stored, time, OpenMessage).(
        notifications := stored.notifications + [Notification(NotificationTitle, OpenMessage)],
        isGateOpen := true)
    else if !detects && stored.isGateOpen then
      WithLog(stored, time, CloseMessage).(isGateOpen := false)
    else
      stored
  }

  /** The state after the readings of `ticks` arrive one after another. */
  function Run(s: State, ticks: seq<Tick>): State
    decreases |ticks|
  {
    if ticks == [] then s
    else
      var t := ticks[0];
      Run(AfterReading(s, t.d1, t.d2, t.ldr, t.time), ticks[1..])
  }

  /** How often the detection result changes along `ticks`, starting from
      the gate state `open`. */
  function Transitions(open: bool, ticks: seq<Tick>): nat
    decreases |ticks|
  {
    if ticks == [] then 0
    else
      var detects := TickDetects(ticks[0]);
      (if detects != open then 1 else 0) + Transitions(detects, ticks[1..])
  }

  /** How often the detection result changes from "nothing" to "object"
      along `ticks`, starting from the gate state `open`. */
  function Openings(open: bool, ticks: seq<Tick>): nat
    decreases |ticks|
  {
    if ticks == [] then 0
    else
      var detects := TickDetects(ticks[0]);
      (if detects && !open then 1 else 0) + Openings(detects, ticks[1..])
  }

  function Repeat(n: nat, x: Notification): seq<Notification> {
    if n == 0 then [] else [x] + Repeat(n - 1, x)
  }

  /** The log, read newest first, alternates between "opened" and "closed",
      and its newest entry names the current gate state. */
  predicate Alternating(s: State) {
    AlternatesFrom(s.logs, s.isGateOpen)
  }

  /** Entry i names the gate state `open` when i is even and the other one
      when i is odd. */
  predicate AlternatesFrom(logs: seq<LogEntry>, open: bool) {
    forall i :: 0 <= i < |logs| ==> logs[i].message == GateMessage(open == (i % 2 == 0))
  }

  // ---------------------------------------------------------------------
  // Properties of a whole run of readings

  /** No sequence of readings takes the log past its cap or breaks the
      status line. */
  lemma {:induction false} RunWellFormed(s: State, ticks: seq<Tick>)
    requires WellFormed(s)
    ensures WellFormed(Run(s, ticks))
    decreases |ticks|
  {
    if ticks != [] {
      var t := ticks[0];
      RunWellFormed(AfterReading(s, t.d1, t.d2, t.ldr, t.time), ticks[1..]);
    }
  }

  /** After a run, the gate reflects exactly the newest reading, and the
      stored readings are the newest ones. */
  lemma {:induction false} RunGateFollowsLastReading(s: State, ticks: seq<Tick>)
    requires ticks != []
    ensures var last := ticks[|ticks| - 1];
      Run(s, ticks).isGateOpen == DetectsObject(last.d1, last.d2) &&
      Run(s, ticks).lastDistance1 == last.d1 &&
      Run(s, ticks).lastDistance2 == last.d2 &&
      Run(s, ticks).lastLdr == last.ldr
    decreases |ticks|
  {
    var t := ticks[0];
    if |ticks| > 1 {
      RunGateFollowsLastReading(AfterReading(s, t.d1, t.d2, t.ldr, t.time), ticks[1..]);
    }
  }

  /** One log entry per change of the gate, up to the cap. */
  lemma {:induction false} RunLogLength(s: State, ticks: seq<Tick>)
    requires |s.logs| <= LogCap
    ensures |Run(s, ticks).logs| == Min(|s.logs| + Transitions(s.isGateOpen, ticks), LogCap)
    decreases |ticks|
  {
    if ticks != [] {
      var t := ticks[0];
      RunLogLength(AfterReading(s, t.d1, t.d2, t.ldr, t.time), ticks[1..]);
    }
  }

  /** One notification, always the "opened" one, per change from closed to
      open, and none otherwise. */
  lemma {:induction false} RunNotifications(s: State, ticks: seq<Tick>)
    ensures Run(s, ticks).notifications ==
      s.notifications + Repeat(Openings(s.isGateOpen, ticks), OpenNotification)
    decreases |ticks|
  {
    if ticks == [] {
      assert s.notifications + [] == s.notifications;
    } else {
      var t := ticks[0];
      var s' := AfterReading(s, t.d1, t.d2, t.ldr, t.time);
      RunNotifications(s', ticks[1..]);
      if s'.isGateOpen && !s.isGateOpen {
        assert s.notifications + [OpenNotification] + Repeat(Openings(s'.isGateOpen, ticks[1..]), OpenNotification)
            == s.notifications + Repeat(Openings(s.isGateOpen, ticks), OpenNotification);
      }
    }
  }

  /** Readings that agree with the current gate state change nothing but the
      stored readings: repeating the same reading never writes a second
      entry or raises a second notification. */
  lemma {:induction false} SteadyReadingsChangeNothing(s: State, ticks: seq<Tick>)
    requires forall i :: 0 <= i < |ticks| ==> TickDetects(ticks[i]) == s.isGateOpen
    ensures Run(s, ticks).logs == s.logs
    ensures Run(s, ticks).notifications == s.notifications
    ensures Run(s, ticks).isGateOpen == s.isGateOpen
    ensures Run(s, ticks).lastStatusMessage == s.lastStatusMessage
    ensures Run(s, ticks).lastStatusTime == s.lastStatusTime
    decreases |ticks|
  {
    if ticks != [] {
      var t := ticks[0];
      var s' := AfterReading(s, t.d1, t.d2, t.ldr, t.time);
      assert TickDetects(ticks[0]) == s.isGateOpen;
      assert forall i :: 0 <= i < |ticks[1..]| ==> ticks[1..][i] == ticks[i + 1];
      SteadyReadingsChangeNothing(s', ticks[1..]);
    }
  }

  /** Handling the same reading twice in a row is the same as handling it
      once, whatever time the second one arrives at. */
  lemma RepeatedReadingIsIdempotent(s: State, d1: real, d2: real, ldr: real, time1: string, time2: string)
    ensures AfterReading(AfterReading(s, d1, d2, ldr, time1), d1, d2, ldr, time2)
         == AfterReading(s, d1, d2, ldr, time1)
  {
    var once := AfterReading(s, d1, d2, ldr, time1);
    var twice := AfterReading(once, d1, d2, ldr, time2);
    assert twice.isGateOpen == once.isGateOpen;
  }

  // ---------------------------------------------------------------------
  // The log tells the history of the gate

  lemma InitialAlternating()
    ensures WellFormed(Initial()) && Alternating(Initial())
  {
  }

  lemma ClearedAlternating(s: State)
    ensures Alternating(Cleared(s))
  {
  }

  /** Putting the entry for `open` in front of a log that alternates from
      the opposite state, and keeping a prefix of the rest, gives a log that
      alternates from `open`. */
  lemma ShiftAlternates(r: seq<LogEntry>, logs: seq<LogEntry>, open: bool)
    requires AlternatesFrom(logs, !open)
    requires |r| > 0 && r[0].message == GateMessage(open)
    requires |r| - 1 <= |logs| && r[1..] == logs[..|r| - 1]
    ensures AlternatesFrom(r, open)
  {
    forall i | 0 < i < |r|
      ensures r[i].message == GateMessage(open == (i % 2 == 0))
    {
      var j := i - 1;
      assert r[i] == r[1..][j] == logs[j];
      assert (i % 2 == 0) != (j % 2 == 0);
    }
  }

  /** Handling a reading keeps the log alternating with the gate. */
  lemma AfterReadingAlternating(s: State, d1: real, d2: real, ldr: real, time: string)
    requires Alternating(s)
    ensures Alternating(AfterReading(s, d1, d2, ldr, time))
  {
    var r := AfterReading(s, d1, d2, ldr, time);
    if r.isGateOpen != s.isGateOpen {
      ShiftAlternates(r.logs, s.logs, r.isGateOpen);
    }
  }

  /** After any run that starts from an alternating log, the log still
      alternates with the gate. */
  lemma {:induction false} RunAlternating(s: State, ticks: seq<Tick>)
    requires Alternating(s)
    ensures Alternating(Run(s, ticks))
    decreases |ticks|
  {
    if ticks != [] {
      var t := ticks[0];
      AfterReadingAlternating(s, t.d1, t.d2, t.ldr, t.time);
      RunAlternating(AfterReading(s, t.d1, t.d2, t.ldr, t.time), ticks[1..]);
    }
  }
}
