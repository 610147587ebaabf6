/** The plot window of the main window: after each `data_received` the plot
    shows the first axis of the last 20 buffered samples, left-padded with
    zeros while fewer than 20 exist, with tick labels naming the buffer
    index each point comes from. Also the start/stop button. */
module View {
  import opened Samples
  import Model

  /** Number of points shown in the plot. */
  const WindowSize: nat := 20

  /** Every sample has a first axis to plot. */
  predicate HasFirstAxis(data: seq<seq<int>>) {
    forall k :: 0 <= k < |data| ==> |data[k]| > 0
  }

  /** `[el[0] for el in data]`. */
  function FirstAxis(data: seq<seq<int>>): (xs: seq<int>)
    requires HasFirstAxis(data)
    ensures |xs| == |data|
  {
    seq(|data|, k requires 0 <= k < |data| => data[k][0])
  }

  /** `list(range(lo, hi))`. */
  function Range(lo: int, hi: int): (r: seq<int>)
    requires lo <= hi
    ensures |r| == hi - lo
  {
    seq(hi - lo, k => lo + k)
  }

  /** The buffer index shown at plot position `k` when the buffer holds `n`
      samples; negative for a padding position. */
  function SourceIndex(n: nat, k: nat): int {
    n - WindowSize + k
  }

  /** The y values plotted for buffer `data`: padding zeros while the buffer
      is shorter than the window, then the first axis of the newest samples.
      Position k shows sample SourceIndex(|data|, k), or 0 where that index
      is negative. */
  function YData(data: seq<seq<int>>): (ydata: seq<int>)
    requires HasFirstAxis(data)
    ensures |ydata| == WindowSize
    ensures forall k :: 0 <= k < WindowSize ==>
      ydata[k] == (if SourceIndex(|data|, k) < 0 then 0 else data[SourceIndex(|data|, k)][0])
  {
    var n := |data|;
    if n < WindowSize then Zeros(WindowSize - n) + FirstAxis(data)
    else FirstAxis(data[n - WindowSize..])
  }

  /** The x tick labels for a buffer of `n` samples: zero for each padding
      position, then the buffer index of each plotted sample. */
  function TickLabels(n: nat): (labels: seq<int>)
    ensures |labels| == WindowSize
    ensures forall k :: 0 <= k < WindowSize ==>
      labels[k] == (if SourceIndex(n, k) < 0 then 0 else SourceIndex(n, k))
  {
    if n < WindowSize then Zeros(WindowSize - n) + Range(0, n)
    else Range(n - WindowSize, n)
  }

  /** With fewer than 20 samples the window is padding followed by every
      sample's first axis, in buffer order; otherwise it is the first axes of
      the last 20 samples. */
  lemma YDataCases(data: seq<seq<int>>)
    requires HasFirstAxis(data)
    ensures |data| < WindowSize ==>
      YData(data)[..WindowSize - |data|] == Zeros(WindowSize - |data|) &&
      forall j :: 0 <= j < |data| ==> YData(data)[WindowSize - |data| + j] == data[j][0]
    ensures |data| >= WindowSize ==>
      forall j :: 0 <= j < WindowSize ==> YData(data)[j] == data[|data| - WindowSize + j][0]
  {
  }

  /** The newest plotted value is the first axis of the newest sample. */
  lemma YDataNewest(data: seq<seq<int>>)
    requires HasFirstAxis(data) && |data| >= 1
    ensures YData(data)[WindowSize - 1] == data[|data| - 1][0]
  {
  }

  /** Appending one sample slides the window by one: the oldest value drops
      out and the new sample's first axis comes in at the end. */
  lemma YDataSlides(data: seq<seq<int>>, d: seq<int>)
    requires HasFirstAxis(data) && |d| > 0
    ensures HasFirstAxis(data + [d])
    ensures YData(data + [d]) == YData(data)[1..] + [d[0]]
  {
  }

  /** The labels slide with the window: one more sample drops the oldest
      label and adds the new sample's index at the end. */
  lemma TickLabelsSlide(n: nat)
    ensures TickLabels(n + 1) == TickLabels(n)[1..] + [n]
  {
  }

  /** Labels and values agree: at every non-padding position the label is a
      buffer index and the plotted value is that sample's first axis; at a
      padding position both are zero. Once 20 samples exist there is no
      padding and the labels are 20 consecutive indices ending at n - 1. */
  lemma LabelsNameSamples(data: seq<seq<int>>)
    requires HasFirstAxis(data)
    ensures var n, labels, y := |data|, TickLabels(|data|), YData(data);
      forall k :: 0 <= k < WindowSize ==>
        if k < WindowSize - n then labels[k] == 0 && y[k] == 0
        else 0 <= labels[k] < n && y[k] == data[labels[k]][0]
    ensures |data| >= WindowSize ==>
      TickLabels(|data|)[0] == |data| - WindowSize &&
      forall k :: 0 < k < WindowSize ==> TickLabels(|data|)[k] == TickLabels(|data|)[k - 1] + 1
  {
  }

  /** The test button: stop listening when listening, start otherwise; never
      both. A stop leaves the thread pool untouched and a start leaves the
      source's running flag untouched. */
  method OnBtnTestClicked(m: Model.Model)
    requires m.Valid()
    modifies m, m.dataSrc
    ensures m.Valid()
    ensures m.dataSrc == old(m.dataSrc)
    ensures m.dataList == old(m.dataList) && m.listening == old(m.listening) && m.Events == old(m.Events)
    ensures m.dataSrc != null ==> m.dataSrc.Log == old(m.dataSrc.Log)
    // listening: a stop request, which keeps the stopped slot connected
    ensures old(m.listening) ==> m.Scheduled == old(m.Scheduled)
    ensures old(m.listening) ==> m.stoppedConnected == old(m.stoppedConnected)
    ensures old(m.listening) && m.dataSrc != null ==> !m.dataSrc.running && !m.startedConnected && !m.dataConnected
    ensures old(m.listening) && m.dataSrc == null ==>
      m.startedConnected == old(m.startedConnected) && m.dataConnected == old(m.dataConnected)
    // not listening: a start attempt, which succeeds when a source is set and not running
    ensures !old(m.listening) && m.dataSrc != null ==> m.dataSrc.running == old(m.dataSrc.running)
    ensures !old(m.listening) ==>
      var ok := old(m.dataSrc) != null && !old(m.dataSrc.running);
      m.Scheduled == old(m.Scheduled) + (if ok then [old(m.dataSrc)] else []) &&
      (ok ==> m.startedConnected && m.stoppedConnected && m.dataConnected) &&
      (!ok ==> m.startedConnected == old(m.startedConnected) && m.stoppedConnected == old(m.stoppedConnected)
               && m.dataConnected == old(m.dataConnected))
  {
    var listening := m.IsListening();
    if listening {
      m.StopListening();
    } else {
      var started := m.StartListening();
    }
  }
}
