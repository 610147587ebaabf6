/** The coordinator: holds the sample buffer, the selected data source and the
    `listening` flag; connects its slots to the source's signals when it
    starts listening and republishes what it observes as `data_src_changed`
    and `data_received`. */
module Model {
  import opened Samples
  import opened DataSources

  /** The two signals the model emits. */
  datatype ModelEvent = DataSrcChanged | DataReceived(d: seq<int>)

  /** The points carried by the `data_ready` emissions of `log`, in order. */
  function DataPoints(log: seq<Emission>): seq<seq<int>>
    decreases |log|
  {
    if log == [] then []
    else
      var last := log[|log| - 1].event;
      DataPoints(log[..|log| - 1]) + (if last.DataReady? then [last.point] else [])
  }

  /** What the model emits when every emission of `log` reaches a connected
      slot: `data_src_changed` for a start or a stop, `data_received` for a point. */
  function Republished(log: seq<Emission>): seq<ModelEvent>
    decreases |log|
  {
    if log == [] then []
    else
      var last := log[|log| - 1].event;
      Republished(log[..|log| - 1]) + (if last.DataReady? then [DataReceived(last.point)] else [DataSrcChanged])
  }

  /** The `listening` flag after `log` reaches connected slots, starting from
      `listening`: the latest start or stop decides it. */
  function ListeningAfter(listening: bool, log: seq<Emission>): bool
    decreases |log|
  {
    if log == [] then listening
    else
      match log[|log| - 1].event
      case WorkStarted => true
      case WorkStopped => false
      case DataReady(_) => ListeningAfter(listening, log[..|log| - 1])
  }

  /** Every point carried by `log` is a 9-value sample. */
  predicate PointsAreSamples(log: seq<Emission>) {
    forall k :: 0 <= k < |log| && log[k].event.DataReady? ==> IsSample(log[k].event.point)
  }

  /** One `data_received` per point, in order. */
  function Received(points: seq<seq<int>>): (events: seq<ModelEvent>)
    ensures |events| == |points|
  {
    seq(|points|, k requires 0 <= k < |points| => DataReceived(points[k]))
  }

  /** One more point is republished as one more `data_received`. */
  lemma ReceivedNext(points: seq<seq<int>>, p: seq<int>)
    ensures Received(points + [p]) == Received(points) + [DataReceived(p)]
  {
  }

  /** Delivering two logs one after the other collects the points and
      republished events of each, in order. */
  lemma {:induction false} DeliveredAppend(a: seq<Emission>, b: seq<Emission>)
    ensures DataPoints(a + b) == DataPoints(a) + DataPoints(b)
    ensures Republished(a + b) == Republished(a) + Republished(b)
    decreases |b|
  {
    if b == [] {
      assert a + b == a;
    } else {
      var init, last := b[..|b| - 1], b[|b| - 1].event;
      DeliveredAppend(a, init);
      assert (a + b)[..|a + b| - 1] == a + init;
      assert (a + b)[|a + b| - 1].event == last;
      var points := if last.DataReady? then [last.point] else [];
      var events := if last.DataReady? then [DataReceived(last.point)] else [DataSrcChanged];
      assert DataPoints(a + b) == DataPoints(a + init) + points;
      assert DataPoints(b) == DataPoints(init) + points;
      AppendAssoc(DataPoints(a), DataPoints(init), points);
      assert Republished(a + b) == Republished(a + init) + events;
      assert Republished(b) == Republished(init) + events;
      AppendAssoc(Republished(a), Republished(init), events);
    }
  }

  /** The data emissions of a run carry exactly its points and are
      republished as one `data_received` each. */
  lemma {:induction false} DataLogDelivered(points: seq<seq<int>>)
    ensures DataPoints(DataLog(points)) == points
    ensures Republished(DataLog(points)) == Received(points)
    decreases |points|
  {
    if points != [] {
      var init, p := points[..|points| - 1], points[|points| - 1];
      DataLogDelivered(init);
      var last := Emission(DataReady(p), true);
      assert points == init + [p];
      DataLogNext(init, p);
      DeliveredAppend(DataLog(init), [last]);
      assert [last][..0] == [];
      assert DataPoints([last]) == [p];
      assert Republished([last]) == [DataReceived(p)];
      ReceivedNext(init, p);
    }
  }

  /** A whole run delivered to connected slots: its points are exactly
      `points`, the model republishes a start, one `data_received` per
      point and a stop, and it ends not listening. */
  lemma RunLogDelivered(points: seq<seq<int>>, listening: bool)
    requires forall k :: 0 <= k < |points| ==> IsSample(points[k])
    ensures PointsAreSamples(RunLog(points))
    ensures DataPoints(RunLog(points)) == points
    ensures Republished(RunLog(points)) == [DataSrcChanged] + Received(points) + [DataSrcChanged]
    ensures !ListeningAfter(listening, RunLog(points))
  {
    var log := RunLog(points);
    forall k | 0 <= k < |log| && log[k].event.DataReady? ensures IsSample(log[k].event.point) {
      assert 0 < k < |log| - 1;
      assert log[k].event.point == points[k - 1];
    }
    assert log[|log| - 1].event == WorkStopped;
    RunLogCollected(points);
  }

  /** The points and republished events of a whole run. */
  lemma RunLogCollected(points: seq<seq<int>>)
    ensures DataPoints(RunLog(points)) == points
    ensures Republished(RunLog(points)) == [DataSrcChanged] + Received(points) + [DataSrcChanged]
  {
    var start, data, stop := [Emission(WorkStarted, true)], DataLog(points), [Emission(WorkStopped, false)];
    var head := start + data;
    assert start[..0] == [] && stop[..0] == [];
    assert DataPoints(start) == [] && Republished(start) == [DataSrcChanged];
    assert DataPoints(stop) == [] && Republished(stop) == [DataSrcChanged];
    DataLogDelivered(points);
    DeliveredAppend(start, data);
    assert DataPoints(head) == points;
    assert Republished(head) == [DataSrcChanged] + Received(points);
    DeliveredAppend(head, stop);
    assert RunLog(points) == head + stop;
  }

  /** Data emissions leave the flag as it was: only a start or a stop decides it. */
  lemma {:induction false} ListeningAfterData(listening: bool, a: seq<Emission>, points: seq<seq<int>>)
    ensures ListeningAfter(listening, a + DataLog(points)) == ListeningAfter(listening, a)
    decreases |points|
  {
    if points == [] {
      assert a + DataLog(points) == a;
    } else {
      var init, p := points[..|points| - 1], points[|points| - 1];
      ListeningAfterData(listening, a, init);
      assert points == init + [p];
      DataLogNext(init, p);
      var log := a + DataLog(points);
      assert log[..|log| - 1] == a + DataLog(init);
      assert log[|log| - 1].event == DataReady(p);
    }
  }

  /** The beginning of a run, up to some point, delivered to connected slots:
      its points are exactly `points`, the model republishes a start and one
      `data_received` per point, and it is listening. */
  lemma StartDelivered(points: seq<seq<int>>, listening: bool)
    requires forall k :: 0 <= k < |points| ==> IsSample(points[k])
    ensures var log := [Emission(WorkStarted, true)] + DataLog(points);
      PointsAreSamples(log) && DataPoints(log) == points &&
      Republished(log) == [DataSrcChanged] + Received(points) && ListeningAfter(listening, log)
  {
    var start := [Emission(WorkStarted, true)];
    var log := start + DataLog(points);
    forall k | 0 <= k < |log| && log[k].event.DataReady? ensures IsSample(log[k].event.point) {
      assert log[k].event.point == points[k - 1];
    }
    DataLogDelivered(points);
    DeliveredAppend(start, DataLog(points));
    assert start[..0] == [];
    assert DataPoints(start) == [] && Republished(start) == [DataSrcChanged];
    ListeningAfterData(listening, start, points);
  }

  /** A run's emissions split after its k-th point: the start and the first
      k points, the remaining points, and the stop. */
  lemma RunLogSplit(points: seq<seq<int>>, k: nat)
    requires k <= |points|
    ensures RunLog(points) == ([Emission(WorkStarted, true)] + DataLog(points[..k]))
                              + DataLog(points[k..]) + [Emission(WorkStopped, false)]
  {
    assert DataLog(points) == DataLog(points[..k]) + DataLog(points[k..]);
    AppendAssoc([Emission(WorkStarted, true)], DataLog(points[..k]), DataLog(points[k..]));
  }

  class Model {
    /** The sample buffer, in arrival order. */
    var dataList: seq<seq<int>>
    /** True between an observed `work_started` and the next observed `work_stopped`. */
    var listening: bool
    /** The selected source, or none. */
    var dataSrc: DataSource?
    /** Whether the model's slots are connected to the source's
        `work_started`, `work_stopped` and `data_ready` signals. */
    var startedConnected: bool
    var stoppedConnected: bool
    var dataConnected: bool
    /** Every signal the model has emitted, in order. */
    ghost var Events: seq<ModelEvent>
    /** Every source handed to the thread pool, in order. */
    ghost var Scheduled: seq<DataSource>

    /** The buffer invariant: every buffered entry is a 9-value sample. */
    ghost predicate Valid()
      reads this
    {
      forall k :: 0 <= k < |dataList| ==> IsSample(dataList[k])
    }

    /** A new model has an empty buffer, is not listening, has no source, no
        connections, and has emitted and scheduled nothing. */
    constructor ()
      ensures Valid()
      ensures dataList == [] && !listening && dataSrc == null
      ensures !startedConnected && !stoppedConnected && !dataConnected
      ensures Events == [] && Scheduled == []
    {
      dataList := [];
      listening := false;
      dataSrc := null;
      startedConnected, stoppedConnected, dataConnected := false, false, false;
      Events := [];
      Scheduled := [];
    }

    /** Append `d` to the buffer and emit `data_received(d)` when it has
        exactly 9 values; otherwise reject it and change nothing. */
    method AddDataPoint(d: seq<int>) returns (ret: bool)
      requires Valid()
      modifies this
      ensures Valid()
      ensures ret <==> IsSample(d)
      ensures dataList == (if ret then old(dataList) + [d] else old(dataList))
      ensures Events == (if ret then old(Events) + [DataReceived(d)] else old(Events))
      ensures listening == old(listening) && dataSrc == old(dataSrc) && Scheduled == old(Scheduled)
      ensures startedConnected == old(startedConnected) && stoppedConnected == old(stoppedConnected)
      ensures dataConnected == old(dataConnected)
    {
      if |d| != Width {
        ret := false;
      } else {
        dataList := dataList + [d];
        Events := Events + [DataReceived(d)];
        ret := true;
      }
    }

    /** The buffer. */
    method GetData() returns (r: seq<seq<int>>)
      requires Valid()
      ensures r == dataList
      ensures forall k :: 0 <= k < |r| ==> IsSample(r[k])
    {
      r := dataList;
    }

    /** Select `src` as the data source and emit `data_src_changed`. The
        buffer, the flag and the connections are left as they are; the old
        source is not stopped. */
    method SetDataSrc(src: DataSource?)
      requires Valid()
      modifies this
      ensures Valid()
      ensures dataSrc == src
      ensures Events == old(Events) + [DataSrcChanged]
      ensures dataList == old(dataList) && listening == old(listening) && Scheduled == old(Scheduled)
      ensures startedConnected == old(startedConnected) && stoppedConnected == old(stoppedConnected)
      ensures dataConnected == old(dataConnected)
    {
      dataSrc := src;
      Events := Events + [DataSrcChanged];
    }

    /** The selected source, or none. */
    method GetDataSrc() returns (r: DataSource?)
      ensures r == dataSrc
    {
      r := dataSrc;
    }

    /** Fail when no source is selected or the source already reports that
        it is running; otherwise connect the three slots, hand the source to
        the thread pool and succeed. Listening itself only begins when the
        source's `work_started` is delivered. */
    method StartListening() returns (ret: bool)
      requires Valid()
      modifies this
      ensures Valid()
      ensures ret <==> old(dataSrc) != null && !old(dataSrc.running)
      ensures ret ==> startedConnected && stoppedConnected && dataConnected
      ensures ret ==> Scheduled == old(Scheduled) + [dataSrc]
      ensures !ret ==> startedConnected == old(startedConnected) && stoppedConnected == old(stoppedConnected)
      ensures !ret ==> dataConnected == old(dataConnected) && Scheduled == old(Scheduled)
      ensures dataList == old(dataList) && listening == old(listening) && dataSrc == old(dataSrc)
      ensures Events == old(Events)
    {
      if dataSrc == null {
        ret := false;
      } else {
        var running := dataSrc.IsRunning();
        if running {
          ret := false;
        } else {
          startedConnected := true;
          stoppedConnected := true;
          dataConnected := true;
          Scheduled := Scheduled + [dataSrc];
          ret := true;
        }
      }
    }

    /** When a source is selected and the model is listening, disconnect the
        `work_started` and `data_ready` slots (keeping `work_stopped`, so that
        the end of the run is still observed) and ask the source to stop;
        otherwise do nothing. Returns no value in either case. */
    method StopListening()
      requires Valid()
      modifies this, dataSrc
      ensures Valid()
      ensures dataSrc == old(dataSrc)
      ensures old(dataSrc) != null && old(listening) ==>
        !startedConnected && !dataConnected && !dataSrc.running
      ensures !(old(dataSrc) != null && old(listening)) ==>
        startedConnected == old(startedConnected) && dataConnected == old(dataConnected)
      ensures dataSrc != null ==> dataSrc.Log == old(dataSrc.Log)
      ensures dataSrc != null && !(old(listening)) ==> dataSrc.running == old(dataSrc.running)
      ensures stoppedConnected == old(stoppedConnected)
      ensures dataList == old(dataList) && listening == old(listening)
      ensures Events == old(Events) && Scheduled == old(Scheduled)
    {
      if dataSrc == null {
        // no source selected: nothing to stop
      } else if !listening {
        // the source is not emitting: nothing to stop
      } else {
        startedConnected := false;
        dataConnected := false;
        dataSrc.Stop();
      }
    }

    /** Slot for `work_started`: now listening; emit `data_src_changed`. */
    method DataSrcStarted()
      requires Valid()
      modifies this
      ensures Valid()
      ensures listening
      ensures Events == old(Events) + [DataSrcChanged]
      ensures dataList == old(dataList) && dataSrc == old(dataSrc) && Scheduled == old(Scheduled)
      ensures startedConnected == old(startedConnected) && stoppedConnected == old(stoppedConnected)
      ensures dataConnected == old(dataConnected)
    {
      listening := true;
      Events := Events + [DataSrcChanged];
    }

    /** Slot for `work_stopped`: no longer listening; emit `data_src_changed`. */
    method DataSrcStopped()
      requires Valid()
      modifies this
      ensures Valid()
      ensures !listening
      ensures Events == old(Events) + [DataSrcChanged]
      ensures dataList == old(dataList) && dataSrc == old(dataSrc) && Scheduled == old(Scheduled)
      ensures startedConnected == old(startedConnected) && stoppedConnected == old(stoppedConnected)
      ensures dataConnected == old(dataConnected)
    {
      listening := false;
      Events := Events + [DataSrcChanged];
    }

    /** The `listening` flag. */
    method IsListening() returns (r: bool)
      ensures r == listening
    {
      r := listening;
    }

    /** Delivery of one source signal to the model: it reaches the slot it is
        connected to, and is dropped when that slot is not connected. */
    method Deliver(e: SourceEvent)
      requires Valid()
      modifies this
      ensures Valid()
      ensures e.WorkStarted? ==> listening == (old(listening) || startedConnected)
      ensures e.WorkStopped? ==> listening == (old(listening) && !stoppedConnected)
      ensures e.DataReady? ==> listening == old(listening)
      ensures e.DataReady? && dataConnected && IsSample(e.point) ==>
        dataList == old(dataList) + [e.point] && Events == old(Events) + [DataReceived(e.point)]
      ensures !(e.DataReady? && dataConnected && IsSample(e.point)) ==> dataList == old(dataList)
      ensures !e.DataReady? ==>
        Events == old(Events) + (if (e.WorkStarted? && startedConnected) || (e.WorkStopped? && stoppedConnected)
                                 then [DataSrcChanged] else [])
      ensures e.DataReady? && !(dataConnected && IsSample(e.point)) ==> Events == old(Events)
      ensures dataSrc == old(dataSrc) && Scheduled == old(Scheduled)
      ensures startedConnected == old(startedConnected) && stoppedConnected == old(stoppedConnected)
      ensures dataConnected == old(dataConnected)
    {
      match e
      case WorkStarted =>
        if startedConnected { DataSrcStarted(); }
      case WorkStopped =>
        if stoppedConnected { DataSrcStopped(); }
      case DataReady(d) =>
        if dataConnected { var _ := AddDataPoint(d); }
    }

    /** Delivery of a sequence of source signals, in emission order, while
        all three slots are connected. */
    method DeliverAll(log: seq<Emission>)
      requires Valid()
      requires startedConnected && stoppedConnected && dataConnected
      requires PointsAreSamples(log)
      modifies this
      ensures Valid()
      ensures dataList == old(dataList) + DataPoints(log)
      ensures Events == old(Events) + Republished(log)
      ensures listening == ListeningAfter(old(listening), log)
      ensures dataSrc == old(dataSrc) && Scheduled == old(Scheduled)
      ensures startedConnected && stoppedConnected && dataConnected
    {
      var i := 0;
      while i < |log|
        invariant 0 <= i <= |log|
        invariant Valid()
        invariant dataList == old(dataList) + DataPoints(log[..i])
        invariant Events == old(Events) + Republished(log[..i])
        invariant listening == ListeningAfter(old(listening), log[..i])
        invariant dataSrc == old(dataSrc) && Scheduled == old(Scheduled)
        invariant startedConnected && stoppedConnected && dataConnected
      {
        var e := log[i].event;
        Deliver(e);
        assert log[..i + 1][..i] == log[..i];
        var points := if e.DataReady? then [e.point] else [];
        var events := if e.DataReady? then [DataReceived(e.point)] else [DataSrcChanged];
        assert DataPoints(log[..i + 1]) == DataPoints(log[..i]) + points;
        assert Republished(log[..i + 1]) == Republished(log[..i]) + events;
        AppendAssoc(old(dataList), DataPoints(log[..i]), points);
        AppendAssoc(old(Events), Republished(log[..i]), events);
        i := i + 1;
      }
      assert log[..|log|] == log;
    }

    /** Delivery of a whole run `RunLog(points)` to connected slots, with
        `stop_listening` called after its first `k` points have arrived: the
        points still in flight are dropped, and the run's `work_stopped`
        still reaches the stopped slot. */
    method DeliverInterrupted(points: seq<seq<int>>, k: nat)
      requires Valid() && dataSrc != null
      requires startedConnected && stoppedConnected && dataConnected
      requires forall j :: 0 <= j < |points| ==> IsSample(points[j])
      requires k <= |points|
      modifies this, dataSrc
      ensures Valid()
      ensures dataList == old(dataList) + points[..k]
      ensures Events == old(Events) + [DataSrcChanged] + Received(points[..k]) + [DataSrcChanged]
      ensures dataSrc == old(dataSrc) && dataSrc.Log == old(dataSrc.Log) && Scheduled == old(Scheduled)
      ensures !listening && !dataSrc.running
      ensures !startedConnected && stoppedConnected && !dataConnected
    {
      var head := [Emission(WorkStarted, true)] + DataLog(points[..k]);
      StartDelivered(points[..k], listening);
      DeliverAll(head);
      StopListening();
      DeliverDropped(DataLog(points[k..]));
      Deliver(WorkStopped);
    }

    /** Delivery of data signals once the `data_ready` slot is disconnected:
        every one of them is dropped. */
    method DeliverDropped(log: seq<Emission>)
      requires Valid() && !dataConnected
      requires forall k :: 0 <= k < |log| ==> log[k].event.DataReady?
      modifies this
      ensures Valid()
      ensures dataList == old(dataList) && Events == old(Events) && listening == old(listening)
      ensures dataSrc == old(dataSrc) && Scheduled == old(Scheduled)
      ensures startedConnected == old(startedConnected) && stoppedConnected == old(stoppedConnected)
      ensures !dataConnected
    {
      for i := 0 to |log|
        invariant Valid()
        invariant dataList == old(dataList) && Events == old(Events) && listening == old(listening)
        invariant dataSrc == old(dataSrc) && Scheduled == old(Scheduled)
        invariant startedConnected == old(startedConnected) && stoppedConnected == old(stoppedConnected)
        invariant !dataConnected
      {
        Deliver(log[i].event);
      }
    }
  }

  /** A whole session with a dummy source: select it, start listening, let
      it run until the stop arrives after `stopAt` iterations, and deliver
      everything it emitted. The buffer grows by exactly the emitted points,
      in emission order, and the model ends not listening. */
  method DummySession(m: Model, src: DataSource, deltas: seq<seq<int>>, stopAt: nat)
    requires m.Valid() && !src.running
    requires AllDeltas(deltas) && stopAt <= |deltas|
    modifies m, src
    ensures m.Valid() && AllDeltas(deltas[..stopAt])
    ensures m.dataSrc == src && !m.listening && !src.running
    ensures m.dataList == old(m.dataList) + DummyPoints(deltas[..stopAt])
    ensures m.Events == old(m.Events) + [DataSrcChanged, DataSrcChanged]
                        + Received(DummyPoints(deltas[..stopAt])) + [DataSrcChanged]
    ensures src.Log == old(src.Log) + RunLog(DummyPoints(deltas[..stopAt]))
    ensures m.Scheduled == old(m.Scheduled) + [src]
    ensures m.startedConnected && m.stoppedConnected && m.dataConnected
  {
    m.SetDataSrc(src);
    var ok := m.StartListening();
    assert ok;
    src.DummyRun(deltas, stopAt);
    var points := DummyPoints(deltas[..stopAt]);
    RunLogDelivered(points, m.listening);
    m.DeliverAll(RunLog(points));
  }

  /** A session stopped from the model while the source is running: select a
      dummy source, start listening, and let it run until the stop arrives
      after `stopAt` iterations. Its emissions are delivered in order, but
      `stop_listening` happens after the first `k` points have arrived: it
      disconnects the started and data slots, so the points still in flight
      are dropped, and the final `work_stopped` still ends listening. */
  method StoppedSession(m: Model, src: DataSource, deltas: seq<seq<int>>, stopAt: nat, k: nat)
    requires m.Valid() && !src.running
    requires AllDeltas(deltas) && k <= stopAt <= |deltas|
    modifies m, src
    ensures m.Valid() && AllDeltas(deltas[..k]) && AllDeltas(deltas[..stopAt])
    ensures m.dataSrc == src && !m.listening && !src.running
    ensures src.Log == old(src.Log) + RunLog(DummyPoints(deltas[..stopAt]))
    ensures m.dataList == old(m.dataList) + DummyPoints(deltas[..k])
    ensures m.Events == old(m.Events) + [DataSrcChanged, DataSrcChanged]
                        + Received(DummyPoints(deltas[..k])) + [DataSrcChanged]
    ensures m.Scheduled == old(m.Scheduled) + [src]
    ensures !m.startedConnected && m.stoppedConnected && !m.dataConnected
  {
    m.SetDataSrc(src);
    var ok := m.StartListening();
    assert ok;
    src.DummyRun(deltas, stopAt);
    var points := DummyPoints(deltas[..stopAt]);
    DummyPointsPrefix(deltas[..stopAt], k);
    assert deltas[..stopAt][..k] == deltas[..k];
    m.DeliverInterrupted(points, k);
  }
}
