/** The plugin's ingestion state machine as values: the rows, the pause flag
    and the number of times the table selection was cleared, together with
    one function per handler the plugin registers and the lemmas about runs
    of events. The class `LaunchPerformance.Plugin` is proved against these
    functions. */
module Ingestion {
  import opened Entries
  import opened DataSources

  /** The capacity the plugin gives its row store. */
  const Limit: nat := 200000

  /** Capacity and eviction chunk of the row store. */
  datatype Config = Config(limit: nat, chunk: nat)

  /** The observable state of one plugin instance. */
  datatype State = State(rows: seq<LogEntry>, paused: bool, selectionClears: nat)

  /** What every reachable state satisfies: the store never exceeds its capacity. */
  predicate Inv(cfg: Config, st: State) {
    WellConfigured(cfg.limit, cfg.chunk) && |st.rows| <= cfg.limit
  }

  /** The pause toggle: resume only from a paused state with a device
      attached; in every other case the result is paused. */
  function ResumePause(st: State, connected: bool): (r: State)
    ensures st.paused ==> (r.paused <==> !connected)
    ensures !st.paused ==> r.paused
    ensures r.rows == st.rows && r.selectionClears == st.selectionClears
  {
    if st.paused && connected then st.(paused := false) else st.(paused := true)
  }

  /** The state right after the plugin is created: an empty store, the flag
      created as `true`, then the toggle run once. */
  function Initial(connected: bool): (r: State)
    ensures r.rows == [] && r.selectionClears == 0
    ensures r.paused == !connected
  {
    ResumePause(State([], true, 0), connected)
  }

  /** Empties the store and asks the table to clear its selection. */
  function ClearLogs(st: State): (r: State)
    ensures r.rows == [] && r.paused == st.paused && r.selectionClears == st.selectionClears + 1
  {
    st.(rows := [], selectionClears := st.selectionClears + 1)
  }

  /** The `measure` handler: admitted only while not paused. */
  function OnMeasure(cfg: Config, st: State, row: LogEntry): (r: State)
    requires Inv(cfg, st)
    ensures Inv(cfg, r)
    ensures r.paused == st.paused && r.selectionClears == st.selectionClears
    ensures st.paused ==> r.rows == st.rows
    ensures !st.paused ==> IsSuffix(r.rows, st.rows + [row]) && 0 < |r.rows| && r.rows[|r.rows| - 1] == row
    ensures !st.paused && |st.rows| < cfg.limit ==> r.rows == st.rows + [row]
  {
    if st.paused then st else st.(rows := Appended(st.rows, row, cfg.limit, cfg.chunk))
  }

  /** The `JS_require_start` handler: clear, then record the marker,
      whatever the pause flag says. */
  function OnRequireStart(cfg: Config, st: State, event: LogEntry): (r: State)
    requires Inv(cfg, st)
    ensures Inv(cfg, r)
    ensures r.rows == [event]
    ensures r.paused == st.paused && r.selectionClears == st.selectionClears + 1
  {
    var cleared := ClearLogs(st);
    assert |cleared.rows| < cfg.limit;
    var appended := Appended(cleared.rows, event, cfg.limit, cfg.chunk);
    assert appended == cleared.rows + [event] == [event];
    cleared.(rows := appended)
  }

  /** Everything that can happen to a running plugin: the two messages the
      application sends and the two buttons of the panel. */
  datatype Event =
    | MeasureMsg(row: LogEntry)
    | RequireStartMsg(event: LogEntry)
    | ResumePauseClick(connected: bool)
    | ClearClick

  function Step(cfg: Config, st: State, ev: Event): (r: State)
    requires Inv(cfg, st)
    ensures Inv(cfg, r)
  {
    match ev
    case MeasureMsg(row) => OnMeasure(cfg, st, row)
    case RequireStartMsg(event) => OnRequireStart(cfg, st, event)
    case ResumePauseClick(connected) => ResumePause(st, connected)
    case ClearClick => ClearLogs(st)
  }

  /** The state after handling `evs` one at a time, in order. */
  function Run(cfg: Config, st: State, evs: seq<Event>): (r: State)
    requires Inv(cfg, st)
    ensures Inv(cfg, r)
    decreases |evs|
  {
    if evs == [] then st else Run(cfg, Step(cfg, st, evs[0]), evs[1..])
  }

  /** The events that deliver `rows` as `measure` messages, in order. */
  function Measures(rows: seq<LogEntry>): (evs: seq<Event>)
    ensures |evs| == |rows|
  {
    if rows == [] then [] else [MeasureMsg(rows[0])] + Measures(rows[1..])
  }

  lemma MeasuresUnfold(rows: seq<LogEntry>)
    requires rows != []
    ensures Measures(rows)[0] == MeasureMsg(rows[0]) && Measures(rows)[1..] == Measures(rows[1..])
  {
    assert Measures(rows) == [MeasureMsg(rows[0])] + Measures(rows[1..]);
  }

  /** A run of `measure` messages starts by handling the first one. */
  lemma RunFirstMeasure(cfg: Config, st: State, rows: seq<LogEntry>)
    requires Inv(cfg, st) && rows != []
    ensures Run(cfg, st, Measures(rows)) == Run(cfg, OnMeasure(cfg, st, rows[0]), Measures(rows[1..]))
  {
    MeasuresUnfold(rows);
  }

  /** The entries carried by the messages among `evs`. */
  function Payloads(evs: seq<Event>): (entries: seq<LogEntry>) {
    if evs == [] then []
    else
      match evs[0]
      case MeasureMsg(row) => [row] + Payloads(evs[1..])
      case RequireStartMsg(event) => [event] + Payloads(evs[1..])
      case _ => Payloads(evs[1..])
  }

  /** No toggle among `evs` happens with a device attached. */
  predicate NoResumeWhileConnected(evs: seq<Event>) {
    forall i :: 0 <= i < |evs| ==> evs[i] != ResumePauseClick(true)
  }

  /** Handling `a` and then `b` is handling `a + b`. */
  lemma {:induction false} RunConcat(cfg: Config, st: State, a: seq<Event>, b: seq<Event>)
    requires Inv(cfg, st)
    ensures Run(cfg, st, a + b) == Run(cfg, Run(cfg, st, a), b)
    decreases |a|
  {
    if a != [] {
      assert (a + b)[0] == a[0];
      assert (a + b)[1..] == a[1..] + b;
      RunConcat(cfg, Step(cfg, st, a[0]), a[1..], b);
    } else {
      assert a + b == b;
    }
  }

  /** While paused, any number of `measure` messages change nothing. */
  lemma {:induction false} PausedDropsMeasures(cfg: Config, st: State, rows: seq<LogEntry>)
    requires Inv(cfg, st) && st.paused
    ensures Run(cfg, st, Measures(rows)) == st
    decreases |rows|
  {
    if rows != [] {
      var evs := Measures(rows);
      assert evs[0] == MeasureMsg(rows[0]) && evs[1..] == Measures(rows[1..]);
      PausedDropsMeasures(cfg, Step(cfg, st, evs[0]), rows[1..]);
    }
  }

  /** While active and with room, `measure` messages append exactly their
      entries, in arrival order. */
  lemma {:induction false} ActiveAppendsAll(cfg: Config, st: State, rows: seq<LogEntry>)
    requires Inv(cfg, st) && !st.paused
    requires |st.rows| + |rows| <= cfg.limit
    ensures Run(cfg, st, Measures(rows)) == st.(rows := st.rows + rows)
    decreases |rows|
  {
    if rows == [] {
      assert st.rows + rows == st.rows;
    } else {
      var next := st.(rows := st.rows + [rows[0]]);
      RunFirstMeasure(cfg, st, rows);
      ActiveAppendsAll(cfg, next, rows[1..]);
      assert next.rows + rows[1..] == st.rows + rows;
    }
  }

  /** While active, however the store overflows, what it holds after a run of
      `measure` messages is the old rows followed by the new entries with
      only the oldest ones dropped: order is kept and eviction is FIFO. */
  lemma {:induction false} MeasuresKeepOrder(cfg: Config, st: State, rows: seq<LogEntry>)
    requires Inv(cfg, st) && !st.paused
    ensures IsSuffix(Run(cfg, st, Measures(rows)).rows, st.rows + rows)
    ensures Run(cfg, st, Measures(rows)).paused == st.paused
    decreases |rows|
  {
    if rows == [] {
      assert st.rows + rows == st.rows;
      SuffixOfSelf(st.rows);
    } else {
      var next := OnMeasure(cfg, st, rows[0]);
      RunFirstMeasure(cfg, st, rows);
      MeasuresKeepOrder(cfg, next, rows[1..]);
      SuffixThenRest(Run(cfg, next, Measures(rows[1..])).rows, next.rows, st.rows, rows);
    }
  }

  /** The store never holds an entry that was neither there before nor
      delivered by a message of the run. */
  lemma {:induction false} RunInventsNothing(cfg: Config, st: State, evs: seq<Event>)
    requires Inv(cfg, st)
    ensures forall x :: x in Run(cfg, st, evs).rows ==> x in st.rows || x in Payloads(evs)
    decreases |evs|
  {
    if evs != [] {
      var next := Step(cfg, st, evs[0]);
      RunInventsNothing(cfg, next, evs[1..]);
      forall x | x in next.rows
        ensures x in st.rows || x in Payloads(evs)
      {
        match evs[0]
        case MeasureMsg(row) =>
          if !st.paused {
            assert x in st.rows + [row];
          }
        case RequireStartMsg(event) =>
        case _ =>
      }
    }
  }

  /** Without a toggle made while a device is attached, a paused plugin stays
      paused whatever else happens. */
  lemma {:induction false} StaysPausedWithoutDevice(cfg: Config, st: State, evs: seq<Event>)
    requires Inv(cfg, st) && st.paused
    requires NoResumeWhileConnected(evs)
    ensures Run(cfg, st, evs).paused
    decreases |evs|
  {
    if evs != [] {
      assert evs[0] != ResumePauseClick(true);
      assert NoResumeWhileConnected(evs[1..]) by {
        forall i | 0 <= i < |evs[1..]|
          ensures evs[1..][i] != ResumePauseClick(true)
        {
          assert evs[1..][i] == evs[i + 1];
        }
      }
      StaysPausedWithoutDevice(cfg, Step(cfg, st, evs[0]), evs[1..]);
    }
  }

  /** A session marker wipes whatever history came before it. */
  lemma SessionStartForgetsHistory(cfg: Config, st: State, history: seq<Event>, marker: LogEntry)
    requires Inv(cfg, st)
    ensures Run(cfg, st, history + [RequireStartMsg(marker)]).rows == [marker]
  {
    RunConcat(cfg, st, history, [RequireStartMsg(marker)]);
  }

  /** With a device attached, two toggles give back the original flag. */
  lemma ToggleTwiceConnected(st: State)
    ensures ResumePause(ResumePause(st, true), true) == st
  {
  }

  /** A full store evicts exactly its oldest `EvictionSize(chunk)` entries
      to admit a new one; with a chunk of one the store keeps its size and
      loses only its oldest entry. */
  lemma FullStoreEvictsOldest(cfg: Config, st: State, row: LogEntry)
    requires Inv(cfg, st) && !st.paused && |st.rows| == cfg.limit
    ensures OnMeasure(cfg, st, row).rows == (st.rows + [row])[EvictionSize(cfg.chunk)..]
    ensures cfg.chunk <= 1 ==> OnMeasure(cfg, st, row).rows == st.rows[1..] + [row]
  {
  }
}
