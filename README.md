# Launch-performance plugin: ingestion state machine

A Flipper desktop plugin receives performance records (`PerformanceLogEntry`)
from a launched application and shows them in a pausable table. Its logic,
in `plugin()`, keeps a bounded row store (`rows`, capacity 200000) and a pause
flag (`isPaused`), and reacts to two messages and two buttons:

- a `measure` message is appended only while the plugin is not paused;
- a `JS_require_start` message (a new module-loading session) clears the
  store and the table selection, then records the marker itself, whatever the
  pause flag says;
- the pause/resume button resumes only from a paused state with a device
  attached, and pauses in every other case; it runs once at creation, so a
  plugin starts active exactly when a device is attached;
- the clear button empties the store and clears the table selection.

The project models this in four modules:

- `Entries` (`entries.dfy`): the `LogEntry` record.
- `DataSources` (`data_source.dfy`): the bounded store as the function
  `Appended` and the class `DataSource` whose `Append` and `Clear` are proved
  against it. The store drops the oldest entries when an append overflows
  it; how many it drops at once is hidden inside the library, so it is the
  parameter `chunk` (one when `chunk` is zero).
- `Ingestion` (`ingestion.dfy`): the plugin's state as a value (`State`: rows,
  pause flag, number of selection clears), one function per handler, `Run`
  over any sequence of messages and clicks, and the lemmas about runs.
- `LaunchPerformance` (`plugin.dfy`): the class `Plugin` with the store, the
  flag and the handlers as methods that change them in place, each proved
  equal to the corresponding `Ingestion` function.

## Model

| member | source | states |
|---|---|---|
| `DataSources.Appended` | src/index.tsx:78-81 | after an append the store holds at most `limit` rows, at least the new one; the result is the old rows plus the new entry with only the oldest dropped; the new entry is last; nothing is dropped if and only if there was room |
| `DataSources.DataSource.constructor` | src/index.tsx:78-81 | a store is created empty with the given capacity |
| `DataSources.DataSource.Append` | src/index.tsx:97 | appending keeps the capacity bound and leaves exactly `Appended` of the old rows |
| `DataSources.DataSource.Clear` | src/index.tsx:119 | clearing leaves the store empty and within its bound |
| `Ingestion.ResumePause` | src/index.tsx:109-115 | from paused the flag becomes active exactly when a device is attached; from active it always becomes paused; rows and selection are untouched |
| `Ingestion.Initial` | src/index.tsx:82-116 | a new plugin has an empty store, no selection clears, and is paused exactly when no device is attached |
| `Ingestion.ClearLogs` | src/index.tsx:118-121 | clearing empties the rows, asks the table to clear its selection once more, and leaves the pause flag as it was |
| `Ingestion.OnMeasure` | src/index.tsx:95-99 | while paused the state is unchanged; while active the entry ends up last, earlier rows keep their order with only the oldest dropped, and with room the rows are exactly the old ones plus the entry; the flag never changes; capacity is kept |
| `Ingestion.OnRequireStart` | src/index.tsx:101-104 | the rows become exactly the marker, whatever they held and whatever the flag; the flag is unchanged and the selection is cleared once |
| `Ingestion.Step` | src/index.tsx:95-121 | every message and button keeps the store within capacity |
| `Ingestion.Run` | src/index.tsx:95-121 | any sequence of messages and buttons keeps the store within capacity |
| `Ingestion.RunConcat` | src/index.tsx:95-121 | handling events one after another composes: a run over `a + b` is the run over `b` from the state after `a` |
| `Ingestion.PausedDropsMeasures` | src/index.tsx:95-99 | while paused, any number of `measure` messages leave the whole state unchanged |
| `Ingestion.ActiveAppendsAll` | src/index.tsx:95-99 | while active and with room, N `measure` messages append exactly their N entries in arrival order and change nothing else |
| `Ingestion.MeasuresKeepOrder` | src/index.tsx:78-99 | while active, after any run of `measure` messages the rows are the old rows followed by the new entries with only the oldest dropped (order kept, FIFO eviction) |
| `Ingestion.FullStoreEvictsOldest` | src/index.tsx:78-97 | a full store admits a new entry by dropping exactly its oldest chunk; with a chunk of one it loses only its oldest entry |
| `Ingestion.RunInventsNothing` | src/index.tsx:95-104 | every row after a run was already stored or was delivered by a message of the run |
| `Ingestion.StaysPausedWithoutDevice` | src/index.tsx:109-115 | a paused plugin stays paused through any run in which no toggle happens with a device attached |
| `Ingestion.SessionStartForgetsHistory` | src/index.tsx:101-104 | whatever history precedes it, a session marker leaves the store holding only the marker |
| `Ingestion.ToggleTwiceConnected` | src/index.tsx:109-115 | with a device attached, two toggles give back the original state |
| `LaunchPerformance.Plugin.constructor` | src/index.tsx:77-116 | creating the plugin gives `Initial` of the device's connection: empty store, paused exactly when no device is attached; the snapshot `isConnected` is that connection |
| `LaunchPerformance.Plugin.OnMeasure` | src/index.tsx:95-99 | the `measure` handler changes the state exactly as `Ingestion.OnMeasure` |
| `LaunchPerformance.Plugin.OnRequireStart` | src/index.tsx:101-104 | the `JS_require_start` handler changes the state exactly as `Ingestion.OnRequireStart` (clear, then append the marker) |
| `LaunchPerformance.Plugin.ResumePause` | src/index.tsx:109-115 | the toggle changes the state exactly as `Ingestion.ResumePause` |
| `LaunchPerformance.Plugin.ClearLogs` | src/index.tsx:118-121 | the store becomes empty, the selection is cleared once more, the flag is unchanged |

## Left out

- The React `Component`, its buttons, icons and the `DataTable` rendering (src/index.tsx:138-167): presentation only.
- `createColumnConfig`, `getRowStyle` and `_fix` (src/index.tsx:29-73): display metadata; `_fix` is used only by commented-out code, and `getRowStyle` returns a constant from `./logTypes`, which is not part of this model.
- The empty `onConnect`, `onActivate`, `onReady` and `onDisconnect` hooks (src/index.tsx:86-93, 106-107): they do nothing.
- The eviction chunk of the library's data source is not visible: the model takes it as the parameter `chunk` (at most the capacity) and proves every property for any such value.
- The `persist: 'logs'` mirroring of the store to disk (src/index.tsx:80): I/O inside the library.
- The table manager reference (src/index.tsx:83-84, 120): reduced to the counter `selectionClears`; whether a table is mounted to receive the call is a UI matter.
- `client.device.isConnected` is read from the host: the toggle takes it as a parameter `deviceConnected` at the moment of the call, and the constructor keeps its value at creation as `isConnected`.
- Routing of messages by name to the handlers happens in the host; `Ingestion.Step` stands for it.
- `startTime` and `duration` are JavaScript numbers; they are `real` here and nothing computes with them. `detail` is untyped and is kept as an optional text.
- The code validates no incoming record, so no rejection of malformed records is modelled.
