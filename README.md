# Gate monitor: activity log and gate state machine

This project models `HistoryViewModel`, the state holder of an Android app
that watches a gate controller. The app polls the controller over HTTP for
two distance sensors and a light sensor: each fetch may wait up to a 3-second
connect timeout and a 3-second read timeout, and the next one starts one
second after it finishes. The view model keeps:

- an activity log of `(time, message)` entries, newest first, capped at 50;
- a status line with the newest message and its time;
- the newest readings;
- whether the gate is open.

A reading in which either distance lies in (0, 50] opens the gate, and any
other reading closes it. Each change of the gate writes exactly one log
entry. Only an opening calls the notification helper.

Files:

- `log_history.dfy` (module `LogHistory`): the log entry and the capped
  prepend that `addLog` performs.
- `gate_model.dfy` (module `GateModel`): the whole view-model state as a
  value. It holds the operations as functions (`WithLog`, `Cleared`,
  `AfterReading`), a run over a sequence of readings (`Run`), and lemmas
  about runs.
- `history_view_model.dfy` (module `ViewModel`): the class
  `HistoryViewModel`. Its fields are updated in place, and each method is
  proved to leave `Model()` equal to the matching function of the old state.

The clock and the notification service are abstracted:

- `addLog` reads the wall clock. Here the formatted time string is a
  parameter (`time`), and `UpdateDataAndCheckNotification` passes it on.
- The Android `Context` parameter is dropped.
- A call to `NotificationHelper.showNotification` is recorded as a
  `Notification(title, text)` appended to the ghost field `notifications`,
  whether or not the platform then shows anything. In the value model it is
  a plain field of `State`.

The class invariant `Valid()`, kept by every method from any state the
class allows, has two parts:

- the log holds at most 50 entries;
- the status line shows the newest entry whenever the log is not empty.

A further property, `Alternating`, says that the log alternates between
"Palang Terbuka (Otomatis)" and "Palang Tertutup (Otomatis)" and that its
newest entry names the current gate state. The constructor and `ClearLogs`
establish it, and `UpdateDataAndCheckNotification` keeps it. `addLog` is
public and takes any message, so `AddLog` may break it; in the app it is
called only from `updateDataAndCheckNotification`.

## Model

| member | source | states |
|---|---|---|
| LogHistory.Prepend | app/src/main/java/com/example/monitor/MainActivity.kt:104-112 | the new entry is first, the old log follows cut to fit, and the length is min(old + 1, 50) |
| LogHistory.PrependShifts | app/src/main/java/com/example/monitor/MainActivity.kt:104-112 | an old entry at index i survives exactly when i < 49, and then it sits at index i + 1 |
| GateModel.WithLog | app/src/main/java/com/example/monitor/MainActivity.kt:100-116 | addLog keeps the cap and puts (time, message) first with the old log after it; the length grows by one below the cap and stays 50 at it; the status line shows the same message and time; nothing else changes |
| GateModel.Cleared | app/src/main/java/com/example/monitor/MainActivity.kt:118-122 | clearLogs empties the log and sets the status to "Riwayat Dihapus" at "-"; the gate, readings and notifications are unchanged |
| GateModel.AfterReading | app/src/main/java/com/example/monitor/MainActivity.kt:124-146 | the three readings are stored; afterwards the gate is open iff 0 < d1 <= 50 or 0 < d2 <= 50; no change means the log, status and notifications are untouched; a change prepends exactly one entry naming the new state; only closed-to-open appends one notification |
| GateModel.RunWellFormed | app/src/main/java/com/example/monitor/MainActivity.kt:100-146 | no sequence of readings takes the log past 50 entries or makes the status line disagree with the newest entry |
| GateModel.RunGateFollowsLastReading | app/src/main/java/com/example/monitor/MainActivity.kt:130-145 | after any non-empty sequence of readings, the gate and the stored readings reflect the newest reading only |
| GateModel.RunLogLength | app/src/main/java/com/example/monitor/MainActivity.kt:136-145 | a run adds one log entry per change of the detection result, up to the cap of 50 |
| GateModel.RunNotifications | app/src/main/java/com/example/monitor/MainActivity.kt:136-140 | a run raises one "Sistem Palang Pintu" / "Palang Terbuka (Otomatis)" notification per closed-to-open change, and no other notification |
| GateModel.SteadyReadingsChangeNothing | app/src/main/java/com/example/monitor/MainActivity.kt:136-145 | readings that agree with the current gate state leave the log, the status line, the gate and the notifications unchanged |
| GateModel.RepeatedReadingIsIdempotent | app/src/main/java/com/example/monitor/MainActivity.kt:130-145 | handling the same reading twice in a row gives the same state as handling it once |
| GateModel.InitialAlternating | app/src/main/java/com/example/monitor/MainActivity.kt:88-98 | the initial state (empty log, gate closed) satisfies the invariant |
| GateModel.ClearedAlternating | app/src/main/java/com/example/monitor/MainActivity.kt:118-122 | after clearLogs the log trivially alternates with the gate |
| GateModel.ShiftAlternates | app/src/main/java/com/example/monitor/MainActivity.kt:102-112 | prepending the entry for the new state to a log that alternates from the old state gives a log that alternates from the new state |
| GateModel.AfterReadingAlternating | app/src/main/java/com/example/monitor/MainActivity.kt:136-145 | handling a reading keeps the log alternating between open and closed entries, newest matching the gate |
| GateModel.RunAlternating | app/src/main/java/com/example/monitor/MainActivity.kt:136-145 | after any run from an alternating state the log still alternates between open and closed entries, newest matching the gate |
| ViewModel.HistoryViewModel.constructor | app/src/main/java/com/example/monitor/MainActivity.kt:88-98 | a new view model has an empty log, status "Menunggu Aktivitas..." at "-", zero readings and a closed gate |
| ViewModel.HistoryViewModel.AddLog | app/src/main/java/com/example/monitor/MainActivity.kt:100-116 | from any state, updates the fields in place to exactly WithLog of the old state and establishes the cap and status-line invariant |
| ViewModel.HistoryViewModel.ClearLogs | app/src/main/java/com/example/monitor/MainActivity.kt:118-122 | from any state, updates the fields in place to exactly Cleared of the old state and establishes the invariant and the alternation |
| ViewModel.HistoryViewModel.UpdateDataAndCheckNotification | app/src/main/java/com/example/monitor/MainActivity.kt:124-146 | updates the fields in place to exactly AfterReading of the old state, keeps the invariant, and keeps the alternation of the log when it held before |

## Left out

- HTTP polling (`fetchSensorData`, `getHttpClient`), the JSON parse and its default of 0.0 are not modelled. That is network I/O over libraries that are not part of this model, so readings are plain inputs.
- `WifiNetworkManager` and the connectivity callback are platform concurrency plumbing.
- `NotificationHelper` and the notification channel are platform calls. A notification is only an event recorded in `notifications`. The POST_NOTIFICATIONS permission check, which makes `showNotification` return without showing anything, is not modelled.
- The one-second polling loops, all Compose screens, navigation and the `%.2f` formatting are UI.
- The wall clock (`SimpleDateFormat("HH:mm:ss").format(Date())`) is replaced by a `time` parameter.
- Readings are exact `real`s rather than 32-bit `Float`s. NaN, infinities and rounding are not modelled. The guard uses only ordered comparisons with 0 and 50.
- Kotlin's `StateFlow` publication of the log to observers is reduced to an assignment of the `logs` field.
