/** One instance of the launch-performance plugin: the row store, the pause
    flag and the hook that clears the table selection, with the handlers the
    plugin registers. Each method is proved against the matching function of
    `Ingestion`. */
module LaunchPerformance {
  import opened Entries
  import opened DataSources
  import opened Ingestion

  class Plugin {
    /** The row store, created with capacity `Limit`. */
    const rows: DataSource
    var isPaused: bool
    /** How many times the table was asked to clear its selection. */
    var selectionClears: nat
    /** Whether a device was attached when the plugin was created; this is
        the value the panel reads to decide whether to show its buttons. */
    const isConnected: bool

    ghost predicate Valid()
      reads this, rows
    {
      rows.Valid() && rows.limit == Limit
    }

    function Cfg(): (cfg: Config)
      reads this
    {
      Config(rows.limit, rows.chunk)
    }

    /** The plugin's state as an `Ingestion.State` value. */
    function Abstract(): (st: State)
      reads this, rows
    {
      State(rows.records, isPaused, selectionClears)
    }

    /** Creates the store and the flag (`true`), then runs the toggle once
        with the device's connection at that moment. `chunk` is the number of
        oldest rows the store drops at once when it is full. */
    constructor (deviceConnected: bool, chunk: nat)
      requires chunk <= Limit
      ensures Valid() && fresh(rows) && rows.chunk == chunk
      ensures Abstract() == Initial(deviceConnected)
      ensures isConnected == deviceConnected
    {
      rows := new DataSource(Limit, chunk);
      isPaused := true;
      selectionClears := 0;
      isConnected := deviceConnected;
      new;
      ResumePause(deviceConnected);
    }

    /** Handler of the `measure` message. */
    method OnMeasure(row: LogEntry)
      requires Valid()
      modifies this, rows
      ensures Valid()
      ensures Abstract() == Ingestion.OnMeasure(Cfg(), old(Abstract()), row)
    {
      if !isPaused {
        rows.Append(row);
      }
    }

    /** Handler of the `JS_require_start` message. */
    method OnRequireStart(event: LogEntry)
      requires Valid()
      modifies this, rows
      ensures Valid()
      ensures Abstract() == Ingestion.OnRequireStart(Cfg(), old(Abstract()), event)
    {
      ClearLogs();
      ghost var cleared := Abstract();
      rows.Append(event);
      assert Abstract() == cleared.(rows := Appended(cleared.rows, event, rows.limit, rows.chunk));
    }

    /** The pause/resume button; `deviceConnected` is the device's
        connection at the moment of the click. */
    method ResumePause(deviceConnected: bool)
      requires Valid()
      modifies this
      ensures Valid()
      ensures Abstract() == Ingestion.ResumePause(old(Abstract()), deviceConnected)
    {
      if isPaused && deviceConnected {
        isPaused := false;
      } else {
        isPaused := true;
      }
    }

    /** The clear button: empties the store and clears the table selection,
        and touches nothing else. */
    method ClearLogs()
      requires Valid()
      modifies this, rows
      ensures Valid()
      ensures rows.records == [] && isPaused == old(isPaused)
      ensures selectionClears == old(selectionClears) + 1
      ensures Abstract() == Ingestion.ClearLogs(old(Abstract()))
    {
      rows.Clear();
      selectionClears := selectionClears + 1;
    }
  }
}
