# imuplot core, modelled in Dafny

imuplot plots 9-axis motion samples (accelerometer, gyroscope, magnetometer;
three axes each) produced by a data source. This project models its three
pieces of sequential logic:

- **Data sources** (`data_sources.dfy`, module `DataSources`). A `DataSource`
  has a `running` flag. `run` sets it and `stop` clears it. Each instance
  keeps a ghost log of the signals it emits (`work_started`, `data_ready`,
  `work_stopped`). Each log entry also records the value `running` had at
  that moment. The base `run` waits until the flag reads False. The dummy
  source's `run` (`DataSource.DummyRun`) emits a random walk. The random
  draws are an input sequence of per-axis deltas in [-10, 10]. The stop
  request from another thread is an input too: the loop check at which the
  stop is first seen. The specification function `DummyPoints` gives the
  emitted points, and `RunLog` gives the whole trace of a run.
- **The coordinator** (`model.dfy`, class `Model.Model`). It holds the sample
  buffer, the `listening` flag and the selected source. Booleans record
  which of its slots are connected to the source's signals. Two ghost logs
  record the signals it emits and the sources it hands to the thread pool.
  `Deliver` models one source signal reaching the slot it is connected to.
  `DeliverAll` delivers a sequence of signals in emission order. The
  functions `DataPoints`, `Republished` and `ListeningAfter` state what that
  delivery does to the buffer, the emitted signals and the flag.
  `DummySession` runs a whole session with a dummy source, and
  `StoppedSession` one in which `stop_listening` is called mid-run.
  `Valid()` is the buffer invariant: every entry has 9 values. Every method
  preserves it.
- **The plot window** (`view.dfy`, module `View`). `YData` and `TickLabels`
  compute the 20 plotted values and their x tick labels from the buffer.
  `OnBtnTestClicked` is the start/stop button.

`samples.dfy` (module `Samples`) holds the sample width (9) and `[0] * n`.

`stop_listening` (src/Model.py:91-116) sets `ret = False` in its two failure
branches. It assigns nothing on success, and it never returns `ret`. So it
always returns `None`, although its docstring says it returns True or False.
`Model.Model.StopListening` follows the code and has no result.

A dummy run does not emit `[0] * 9` itself. The walk starts there, but its
first emitted point is already `[0] * 9` plus the first draw
(src/DataSources.py:87-94). `DummyPoints` and `DummyPointsWalk` state this.

## Model

| member | source | states |
|---|---|---|
| `DataSources.DataSource.constructor` | src/DataSources.py:28-35 | a new source is not running and has emitted nothing |
| `DataSources.DataSource.Stop` | src/DataSources.py:53-58 | `running` becomes False; nothing else changes (the frame is the `running` field alone) |
| `DataSources.DataSource.Emit` | src/DataSources.py:42-51 | emitting a signal appends it to the log together with the value `running` has at that moment, so the `running` flags in `RunLog` are tied to the field by `Run` and `DummyRun` |
| `DataSources.DataSource.IsRunning` | src/DataSources.py:60-65 | returns exactly the `running` field |
| `DataSources.DataSource.Run` | src/DataSources.py:37-51 | the base run ends not running and emits exactly `RunLog([])`: `work_started` with `running` already True, then `work_stopped` once the loop has seen `running` False |
| `DataSources.DataSource.DummyRun` | src/DataSources.py:79-101 | a dummy run stopped after `stopAt` iterations ends not running and emits exactly `RunLog(DummyPoints(deltas[..stopAt]))`: one point per completed iteration, built from the previous point and the next draw |
| `DataSources.DummyPoints` | src/DataSources.py:87-97 | one point per draw, and every point has exactly 9 values |
| `DataSources.RunLogShape` | src/DataSources.py:84-101 | a run's trace: exactly one `work_started`, first, emitted while running; the data points in order; exactly one `work_stopped`, last, emitted with `running` False |
| `DataSources.DummyPointsWalk` | src/DataSources.py:87-97 | point 0 is `[0] * 9` plus draw 0, and point k is point k-1 plus draw k, per axis |
| `DataSources.DummyPointsBounded` | src/DataSources.py:87-97 | the first point is within 10 of `[0] * 9` on every axis, and each later point is within 10 of its predecessor on every axis |
| `DataSources.DummyPointsPrefix` | src/DataSources.py:89-99 | stopping after n iterations emits the first n points of any longer run with the same draws |
| `Model.Model.constructor` | src/Model.py:12-20 | a new model has an empty buffer, is not listening, has no source and no connections, and has emitted nothing |
| `Model.Model.AddDataPoint` | src/Model.py:22-35 | returns True exactly when the input has 9 values; then the buffer becomes old buffer + [d] and `data_received(d)` is emitted once; otherwise buffer and events are unchanged; the rest of the state is unchanged and the invariant holds |
| `Model.Model.GetData` | src/Model.py:37-42 | returns the buffer, all of whose entries have 9 values |
| `Model.Model.SetDataSrc` | src/Model.py:44-50 | the source becomes `src` and `data_src_changed` is emitted; buffer, flag and connections are untouched, so the buffer is not cleared |
| `Model.Model.GetDataSrc` | src/Model.py:52-57 | returns the selected source, or none |
| `Model.Model.StartListening` | src/Model.py:59-89 | succeeds exactly when a source is selected and it is not running; on success all three slots are connected and the source is handed to the pool; on failure nothing changes; `listening` is not changed either way |
| `Model.Model.StopListening` | src/Model.py:91-116 | with a source and while listening: the started and data slots are disconnected, the stopped slot stays connected, and the source is no longer running; otherwise nothing changes; no result |
| `Model.Model.DataSrcStarted` | src/Model.py:118-124 | `listening` becomes True and `data_src_changed` is emitted |
| `Model.Model.DataSrcStopped` | src/Model.py:126-132 | `listening` becomes False and `data_src_changed` is emitted |
| `Model.Model.IsListening` | src/Model.py:134-139 | returns exactly the `listening` flag |
| `Model.Model.Deliver` | src/Model.py:82-84 | a source signal runs the slot it is connected to and is dropped otherwise: a started signal sets listening, a stopped one clears it, a data signal appends a valid sample |
| `Model.Model.DeliverAll` | src/Model.py:82-84 | with all three slots connected and every point a sample, the buffer grows by exactly the points of the delivered signals in order, the model emits one `data_src_changed` per start or stop and one `data_received` per point, and `listening` is decided by the latest start or stop |
| `Model.RunLogDelivered` | src/Model.py:118-132 | delivering a whole run to connected slots yields exactly the run's points, republishes a start, one `data_received` per point and a stop, and ends not listening |
| `Model.DummySession` | src/Model.py:59-89 | select a dummy source, start listening, run it until the stop and deliver what it emitted: the source emits exactly one whole run, the buffer grows by exactly the run's points in emission order, the model emits two `data_src_changed`, one `data_received` per point and a final `data_src_changed`, it ends not listening with the source stopped, the source is scheduled exactly once and all three slots stay connected |
| `Model.Model.DeliverDropped` | src/Model.py:113-115 | once the `data_ready` slot is disconnected, data signals still in flight are dropped: buffer, signals, flag and connections are unchanged |
| `Model.Model.DeliverInterrupted` | src/Model.py:91-132 | a run delivered with `stop_listening` after its first k points: the buffer grows by exactly those k points, the model emits a start, one `data_received` each and a stop, ends not listening with the source stopped, and only the stopped slot stays connected |
| `Model.StartDelivered` | src/Model.py:118-124 | delivering the start of a run and its first points yields exactly those points, a start and one `data_received` each, and leaves the model listening |
| `Model.StoppedSession` | src/Model.py:59-132 | select a dummy source, start listening, run it until the stop after `stopAt` iterations, and call `stop_listening` after k of its points have arrived: the source emits its whole run, the buffer grows by exactly the first k points, the rest are dropped, and the final `work_stopped` ends listening; the source is scheduled once and only the stopped slot stays connected |
| `View.YData` | src/View.py:107-114 | the window always has 20 values; position k shows the first axis of buffer entry n-20+k, or 0 where that index is negative |
| `View.TickLabels` | src/View.py:110-115 | always 20 labels; position k is labelled n-20+k, or 0 where that index is negative |
| `View.YDataCases` | src/View.py:110-114 | with n < 20 samples: 20-n zeros, then every sample's first axis in buffer order; with n >= 20: the first axes of the last 20 samples in buffer order |
| `View.YDataNewest` | src/View.py:111-114 | the last window value is the first axis of the newest sample |
| `View.YDataSlides` | src/View.py:107-114 | appending one sample drops the oldest window value and adds the new sample's first axis at the end |
| `View.TickLabelsSlide` | src/View.py:110-115 | one more sample drops the oldest label and adds the new sample's index n at the end |
| `View.LabelsNameSamples` | src/View.py:107-115 | at each padding position label and value are both 0; elsewhere the label is a buffer index and the value is that sample's first axis; with n >= 20 the labels are the 20 consecutive indices n-20..n-1 |
| `View.OnBtnTestClicked` | src/View.py:83-87 | when listening, exactly the effect of a stop request: the started and data slots are disconnected, the stopped slot stays connected, the source stops, and nothing is scheduled. Otherwise, exactly the effect of a start attempt: it succeeds when a source is set and not running, and then all three slots are connected and the source is scheduled; on failure the connections are unchanged. The source's running flag is untouched in that case. Never both; buffer, flag, emitted signals and the source's log are unchanged |

## Left out

- Thread pool and threads: handing a source to the pool is recorded in the ghost `Scheduled` log. Running it is a separate call to `Run` or `DummyRun`. Cross-thread signal delivery is a sequence of `Deliver` calls, in emission order.
- Interleaving with another thread: a concurrent `stop` is modelled as taking effect at one chosen check of the `running` loop (`stopAt`). Runs that never end are not modelled. A stop that lands between the loop check and the emit would make `data_ready` fire with `running` already False. The model records every data emission as made while running; the order of events is the same either way.
- `time.sleep` and `random.randint`: no clock. The draws are the `deltas` input, each bounded to [-10, 10].
- Qt signal objects: a connection is a boolean, and emitted signals are ghost logs. Qt allows the same slot to be connected twice, and the booleans do not capture this. It happens in two ways. First, `start_listening` after an earlier `stop_listening` connects the stopped slot a second time, so `data_src_stopped` would run twice. Second, two `start_listening` calls before `run` sets `running` both succeed (the model schedules the source twice). That doubles all three connections, so every sample would be appended twice.
- Model.Model.StopListening: PyQt raises an error when disconnecting a slot that is not connected. This can happen when `stop_listening` is called twice before `work_stopped` arrives. The model treats that second disconnect as a no-op.
- The class-level `signals` object shared by all data-source instances: each `DataSource` keeps its own log.
- Model.Model.GetData: returns the buffer's value. The source returns the list object itself, which later appends mutate.
- Samples are integer lists. Floating-point samples are not modelled.
- `DummyDataSource` only overrides `run`. It is modelled as the `DummyRun` method of the same `DataSource` class rather than as a subclass.
- The matplotlib canvas, UI loading, drawing and the initial-draw branch of `on_data_received` (src/View.py:93-102), `closeEvent`'s event-pumping wait loop (src/View.py:50-81), and src/main.py are presentation or bootstrap code.
- File-replay and serial sources are not part of this model. They do not exist in the source files.
