/** Data sources: objects that produce samples on a worker thread and report
    their lifecycle through the signals `work_started`, `data_ready` and
    `work_stopped`. The base source only waits for a stop request; the dummy
    source emits a random walk of samples until it is stopped. */
module DataSources {
  import opened Samples

  /** The three signals a data source emits. */
  datatype SourceEvent = WorkStarted | DataReady(point: seq<int>) | WorkStopped

  /** One emitted signal, together with the value the source's `running`
      flag had at the moment of emission. */
  datatype Emission = Emission(event: SourceEvent, whileRunning: bool)

  /** Bound of the per-axis random draw `randint(-10, 10)`. */
  const MaxDelta: int := 10

  /** A draw of the dummy source's random generator: one value in
      [-MaxDelta, MaxDelta] per axis. */
  predicate IsDelta(delta: seq<int>) {
    |delta| == Width && forall i :: 0 <= i < |delta| ==> -MaxDelta <= delta[i] <= MaxDelta
  }

  /** Every draw in `deltas` is a valid random draw. */
  predicate AllDeltas(deltas: seq<seq<int>>) {
    forall k :: 0 <= k < |deltas| ==> IsDelta(deltas[k])
  }

  /** The last element of `s`, or `default` when `s` is empty. */
  function LastOr(s: seq<seq<int>>, default: seq<int>): seq<int> {
    if s == [] then default else s[|s| - 1]
  }

  /** The point the walk stood at before point `k`: `[0] * 9` for the
      first point, otherwise the previous point. */
  function Before(points: seq<seq<int>>, k: nat): seq<int>
    requires k <= |points|
  {
    if k == 0 then Zeros(Width) else points[k - 1]
  }

  /** One step of the random walk: each axis of `prev` moved by the matching draw. */
  function Step(prev: seq<int>, delta: seq<int>): (next: seq<int>)
    requires |delta| == |prev|
    ensures |next| == |prev|
  {
    seq(|prev|, i requires 0 <= i < |prev| => prev[i] + delta[i])
  }

  /** The points a dummy source emits when its random generator yields
      `deltas`, in emission order. The walk starts from `[0] * 9`, but that
      starting point is never emitted itself: point 0 is already a step away. */
  function DummyPoints(deltas: seq<seq<int>>): (points: seq<seq<int>>)
    requires AllDeltas(deltas)
    ensures |points| == |deltas|
    ensures forall k :: 0 <= k < |points| ==> IsSample(points[k])
    decreases |deltas|
  {
    if deltas == [] then []
    else
      var before := DummyPoints(deltas[..|deltas| - 1]);
      before + [Step(LastOr(before, Zeros(Width)), deltas[|deltas| - 1])]
  }

  /** The `data_ready` emissions for `points`, in order. Each is recorded as
      made while running because the model lands the stop request during the
      sleep after an emission; a stop arriving between the loop check and the
      emit would find the flag already False, with the same order of events. */
  function DataLog(points: seq<seq<int>>): (log: seq<Emission>)
    ensures |log| == |points|
    ensures forall k :: 0 <= k < |log| ==> log[k].event.DataReady? && log[k].event.point == points[k]
  {
    seq(|points|, k requires 0 <= k < |points| => Emission(DataReady(points[k]), true))
  }

  /** What one run of a source emits: `work_started`, the data points, then
      `work_stopped`. */
  function RunLog(points: seq<seq<int>>): seq<Emission> {
    [Emission(WorkStarted, true)] + DataLog(points) + [Emission(WorkStopped, false)]
  }

  /** The shape of a run's emissions: exactly one `work_started`, first and
      made while running; exactly one `work_stopped`, last and made once
      running is False; in between the points, in order. */
  lemma RunLogShape(points: seq<seq<int>>)
    ensures var log := RunLog(points);
      |log| == |points| + 2 &&
      log[0] == Emission(WorkStarted, true) &&
      (forall k :: 0 <= k < |log| ==> (log[k].event == WorkStarted <==> k == 0)) &&
      log[|log| - 1] == Emission(WorkStopped, false) &&
      (forall k :: 0 <= k < |log| ==> (log[k].event == WorkStopped <==> k == |log| - 1)) &&
      (forall k :: 0 < k < |log| - 1 ==> log[k] == Emission(DataReady(points[k - 1]), true))
  {
  }

  /** The dummy walk: the first point is `[0] * 9` plus the first draw, and
      each later point is its predecessor plus the next draw. */
  lemma {:induction false} DummyPointsWalk(deltas: seq<seq<int>>)
    requires AllDeltas(deltas)
    ensures var points := DummyPoints(deltas);
      forall k, i :: 0 <= k < |points| && 0 <= i < Width ==>
        points[k][i] == Before(points, k)[i] + deltas[k][i]
    decreases |deltas|
  {
    if deltas != [] {
      var init := deltas[..|deltas| - 1];
      assert AllDeltas(init);
      DummyPointsWalk(init);
      var before := DummyPoints(init);
      var points := DummyPoints(deltas);
      assert points == before + [Step(LastOr(before, Zeros(Width)), deltas[|deltas| - 1])];
      forall k, i | 0 <= k < |points| && 0 <= i < Width
        ensures points[k][i] == Before(points, k)[i] + deltas[k][i]
      {
        if k < |before| {
          assert points[k] == before[k] && deltas[k] == init[k];
          if k > 0 { assert points[k - 1] == before[k - 1]; }
        } else if k > 0 {
          assert points[k - 1] == before[k - 1] == LastOr(before, Zeros(Width));
        }
      }
    }
  }

  /** Every dummy point is within MaxDelta per axis of its predecessor, and
      the first is within MaxDelta per axis of `[0] * 9`. */
  lemma DummyPointsBounded(deltas: seq<seq<int>>)
    requires AllDeltas(deltas)
    ensures var points := DummyPoints(deltas);
      forall k, i :: 0 <= k < |points| && 0 <= i < Width ==>
        -MaxDelta <= points[k][i] - Before(points, k)[i] <= MaxDelta
  {
  }

  /** Stopping the dummy source earlier yields a prefix of the same stream:
      the points emitted before a stop do not depend on when the stop comes. */
  lemma {:induction false} DummyPointsPrefix(deltas: seq<seq<int>>, n: nat)
    requires AllDeltas(deltas) && n <= |deltas|
    ensures AllDeltas(deltas[..n]) && DummyPoints(deltas[..n]) == DummyPoints(deltas)[..n]
    decreases |deltas|
  {
    assert AllDeltas(deltas[..n]);
    if n < |deltas| {
      var init := deltas[..|deltas| - 1];
      assert AllDeltas(init);
      DummyPointsPrefix(init, n);
      assert init[..n] == deltas[..n];
    } else {
      assert deltas[..n] == deltas;
    }
  }

  /** One more iteration of the dummy loop emits one more point: the step
      from the last point (or `[0] * 9`) by the next draw. */
  lemma DummyPointsNext(deltas: seq<seq<int>>, n: nat)
    requires AllDeltas(deltas) && n < |deltas|
    ensures AllDeltas(deltas[..n]) && AllDeltas(deltas[..n + 1])
    ensures DummyPoints(deltas[..n + 1]) ==
      DummyPoints(deltas[..n]) + [Step(LastOr(DummyPoints(deltas[..n]), Zeros(Width)), deltas[n])]
  {
    assert AllDeltas(deltas[..n]) && AllDeltas(deltas[..n + 1]);
    assert deltas[..n + 1][..n] == deltas[..n];
  }

  /** The data emissions of one more point. */
  lemma DataLogNext(points: seq<seq<int>>, p: seq<int>)
    ensures DataLog(points + [p]) == DataLog(points) + [Emission(DataReady(p), true)]
  {
  }

  /** One iteration of the dummy loop, stated on the emissions: the next
      point is the step from the previous one by the next draw, becomes the
      new previous point, and extends the data emissions by one. */
  lemma DummyLoopStep(deltas: seq<seq<int>>, n: nat, prev: seq<int>)
    requires AllDeltas(deltas) && n < |deltas|
    requires AllDeltas(deltas[..n]) && prev == LastOr(DummyPoints(deltas[..n]), Zeros(Width))
    ensures |prev| == Width && AllDeltas(deltas[..n + 1])
    ensures Step(prev, deltas[n]) == LastOr(DummyPoints(deltas[..n + 1]), Zeros(Width))
    ensures DataLog(DummyPoints(deltas[..n + 1])) ==
      DataLog(DummyPoints(deltas[..n])) + [Emission(DataReady(Step(prev, deltas[n])), true)]
  {
    DummyPointsNext(deltas, n);
    DataLogNext(DummyPoints(deltas[..n]), Step(prev, deltas[n]));
  }

  /** Appending to a log is associative. */
  lemma AppendAssoc<T>(a: seq<T>, b: seq<T>, c: seq<T>)
    ensures (a + b) + c == a + (b + c)
  {
  }

  /** A data source. `running` is set by `run` and cleared by `stop`; `Log`
      records every signal this source emits. */
  class DataSource {
    var running: bool
    ghost var Log: seq<Emission>

    /** A new source is not running and has emitted nothing. */
    constructor ()
      ensures !running && Log == []
    {
      running := false;
      Log := [];
    }

    /** Mark the source as not running; nothing else changes. */
    method Stop()
      modifies this`running
      ensures !running
    {
      running := false;
    }

    /** Emit signal `e`: it is appended to the log together with the value
        the `running` flag has at that moment. */
    method Emit(e: SourceEvent)
      modifies this`Log
      ensures Log == old(Log) + [Emission(e, running)]
    {
      Log := Log + [Emission(e, running)];
    }

    /** Report the `running` flag. */
    method IsRunning() returns (r: bool)
      ensures r == running
    {
      r := running;
    }

    /** The base source's `run`: mark running, emit `work_started`, wait until
        the running flag reads False, emit `work_stopped`. The `stop` issued by
        another thread is modelled as arriving just before check number
        `stopAt` of the wait loop. */
    method Run(stopAt: nat)
      modifies this
      ensures !running
      ensures Log == old(Log) + RunLog([])
    {
      running := true;
      Emit(WorkStarted);
      var polls := 0;
      if polls == stopAt { Stop(); }
      while running
        invariant polls <= stopAt
        invariant running <==> polls < stopAt
        invariant Log == old(Log) + [Emission(WorkStarted, true)]
        decreases stopAt - polls
      {
        polls := polls + 1;
        if polls == stopAt { Stop(); }
      }
      Emit(WorkStopped);
    }

    /** The dummy source's `run`: mark running, emit `work_started`, then
        until the running flag reads False build the next point from the
        previous one (starting at `[0] * 9`) and the next random draw, and
        emit it; finally emit `work_stopped`. The random draws are the input
        `deltas`; the `stop` from another thread arrives during the sleep
        after `stopAt` iterations (before the first check when `stopAt` is 0). */
    method DummyRun(deltas: seq<seq<int>>, stopAt: nat)
      requires AllDeltas(deltas) && stopAt <= |deltas|
      modifies this
      ensures !running
      ensures AllDeltas(deltas[..stopAt])
      ensures Log == old(Log) + RunLog(DummyPoints(deltas[..stopAt]))
    {
      running := true;
      Emit(WorkStarted);
      ghost var started := Log;
      var oldDataPoint := Zeros(Width);
      var counter := 0;
      assert deltas[..counter] == [];
      if counter == stopAt { Stop(); }
      while running
        invariant counter <= stopAt
        invariant running <==> counter < stopAt
        invariant AllDeltas(deltas[..counter])
        invariant oldDataPoint == LastOr(DummyPoints(deltas[..counter]), Zeros(Width))
        invariant Log == started + DataLog(DummyPoints(deltas[..counter]))
        decreases stopAt - counter
      {
        DummyLoopStep(deltas, counter, oldDataPoint);
        var dataPoint := Step(oldDataPoint, deltas[counter]);
        ghost var emitted := DataLog(DummyPoints(deltas[..counter]));
        Emit(DataReady(dataPoint));
        AppendAssoc(started, emitted, [Emission(DataReady(dataPoint), true)]);
        oldDataPoint := dataPoint;
        counter := counter + 1;
        if counter == stopAt { Stop(); }
      }
      ghost var emitted := DataLog(DummyPoints(deltas[..stopAt]));
      Emit(WorkStopped);
      AppendAssoc(old(Log), [Emission(WorkStarted, true)], emitted);
      AppendAssoc(old(Log), [Emission(WorkStarted, true)] + emitted, [Emission(WorkStopped, false)]);
    }
  }
}
