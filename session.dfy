/** The finger-tapping test as the analyzer object runs it: a countdown,
    a recording window during which space-bar presses are time-stamped,
    and the analysis when the window closes. The Tk event loop's timers
    are an explicit queue of scheduled callbacks, fired one at a time by
    `Fire`; key presses and the clock are parameters. */
module Session {
  import opened Stats
  import opened Ieee
  import opened Fatigue
  import opened Risk
  import opened Analysis
  import opened Dataset

  datatype Option<T> = None | Some(value: T)

  /** A key as the keyboard listener reports it. */
  datatype Key = Space | OtherKey(code: int)

  /** The keyboard listener: not created yet, listening, or stopped. */
  datatype Listener = NotCreated | Running | Stopped

  /** A callback handed to the event loop. */
  datatype Task = CountdownTask(count: int) | StopListenerTask

  /** A callback together with its delay in milliseconds. */
  datatype Scheduled = Scheduled(delayMs: int, task: Task)

  const CountdownStart: int := 3
  const TickMs: int := 1000
  const DefaultTestDuration: int := 10

  class FingerTappingAnalyzer {
    /** Timestamps of the space-bar presses of the current run. */
    var tapTimes: seq<real>
    /** Length of the recording window in seconds. */
    const testDuration: int
    /** Reference means from the baseline dataset. */
    const baseline: Baseline
    var listener: Listener
    /** Callbacks waiting in the event loop, oldest first. */
    var pending: seq<Scheduled>

    /** The baseline means come from the dataset's three metric columns. */
    constructor (stdCol: Column, cvCol: Column, fatigueCol: Column)
      ensures tapTimes == []
      ensures testDuration == DefaultTestDuration
      ensures baseline == LoadBaseline(stdCol, cvCol, fatigueCol)
      ensures listener == NotCreated
      ensures pending == []
    {
      tapTimes := [];
      testDuration := DefaultTestDuration;
      baseline := LoadBaseline(stdCol, cvCol, fatigueCol);
      listener := NotCreated;
      pending := [];
    }

    /** `start_test`: forget earlier taps and run the countdown from 3,
        whose first step schedules the tick for 2. */
    method StartTest()
      modifies this
      ensures tapTimes == []
      ensures listener == old(listener)
      ensures pending == old(pending) + [Scheduled(TickMs, CountdownTask(CountdownStart - 1))]
    {
      tapTimes := [];
      Countdown(CountdownStart);
    }

    /** `countdown`: while the count is positive, schedule the next tick one
        second later; at 0, start recording. */
    method Countdown(count: int)
      modifies this
      ensures count > 0 ==>
        tapTimes == old(tapTimes) && listener == old(listener) &&
        pending == old(pending) + [Scheduled(TickMs, CountdownTask(count - 1))]
      ensures count <= 0 ==>
        tapTimes == [] && listener == Running &&
        pending == old(pending) + [Scheduled(testDuration * 1000, StopListenerTask)]
    {
      if count > 0 {
        pending := pending + [Scheduled(TickMs, CountdownTask(count - 1))];
      } else {
        StartTappingTest();
      }
    }

    /** `start_tapping_test`: clear the taps, start a fresh listener and
        schedule its stop after the test duration. */
    method StartTappingTest()
      modifies this
      ensures tapTimes == []
      ensures listener == Running
      ensures pending == old(pending) + [Scheduled(testDuration * 1000, StopListenerTask)]
    {
      tapTimes := [];
      listener := Running;
      pending := pending + [Scheduled(testDuration * 1000, StopListenerTask)];
    }

    /** `on_press`: record the time of a space-bar press; ignore other keys. */
    method OnPress(key: Key, now: real)
      modifies this`tapTimes
      ensures key == Space ==> tapTimes == old(tapTimes) + [now]
      ensures key != Space ==> tapTimes == old(tapTimes)
    {
      if key == Space {
        tapTimes := tapTimes + [now];
      }
    }

    /** The keyboard listener's dispatch: presses reach `on_press` only while
        the listener is running. */
    method KeyPressed(key: Key, now: real)
      modifies this`tapTimes
      ensures tapTimes == if listener == Running then PressTimes(old(tapTimes), key, now) else old(tapTimes)
    {
      if listener == Running {
        OnPress(key, now);
      }
    }

    /** `analyze_results`: the outcome of the recorded taps against the
        baseline. `std` stands for np.std of the intervals. */
    method AnalyzeResults(std: real) returns (o: Outcome)
      requires |tapTimes| >= 2 ==> IsStd(Diff(tapTimes), std)
      ensures o == Assess(tapTimes, baseline, std)
    {
      if |tapTimes| < 2 {
        return NotEnoughTaps;
      }
      var intervals := Diff(tapTimes);
      var mean := Mean(intervals);
      var metrics := Metrics(mean, std, Div(std, mean), FatigueIndex(intervals), |tapTimes|);
      var score := CalculateRisk(metrics);
      var text := RiskText(score);
      o := Assessed(metrics, score, text);
    }

    /** `calculate_risk`: add each weight whose test fires, then cap at 100. */
    method CalculateRisk(metrics: Metrics) returns (score: int)
      ensures score == RiskScore(metrics, baseline)
      ensures score in {0, 10, 15, 25, 35, 40, 50}
    {
      score := 0;
      if Greater(Num(metrics.stdTapTime), Plus(baseline.meanStd, StdOffset)) {
        score := score + StdWeight;
      }
      if Greater(metrics.cvTapTime, Plus(baseline.meanCv, CvOffset)) {
        score := score + CvWeight;
      }
      if Greater(metrics.fatigueIndex, Plus(baseline.meanFatigue, FatigueOffset)) {
        score := score + FatigueWeight;
      }
      score := if score < MaxScore then score else MaxScore;
    }

    /** `stop_listener`: stop the listener and analyse. Before any listener
        exists the attribute lookup fails, the error is caught and nothing is
        analysed, which is the `None` result. */
    method StopListener(std: real) returns (o: Option<Outcome>)
      requires |tapTimes| >= 2 ==> IsStd(Diff(tapTimes), std)
      modifies this`listener
      ensures old(listener) == NotCreated ==> o == None && listener == NotCreated
      ensures old(listener) != NotCreated ==>
        o == Some(Assess(tapTimes, baseline, std)) && listener == Stopped
    {
      if listener == NotCreated {
        return None;
      }
      listener := Stopped;
      var outcome := AnalyzeResults(std);
      o := Some(outcome);
    }

    /** The event loop runs the oldest pending callback, if any. */
    method Fire(std: real) returns (o: Option<Outcome>)
      requires |tapTimes| >= 2 ==> IsStd(Diff(tapTimes), std)
      modifies this
      ensures old(pending) == [] ==>
        o == None && pending == [] && tapTimes == old(tapTimes) && listener == old(listener)
      ensures old(pending) != [] && old(pending)[0].task.CountdownTask? ==>
        var count := old(pending)[0].task.count;
        o == None &&
        (count > 0 ==>
          tapTimes == old(tapTimes) && listener == old(listener) &&
          pending == old(pending)[1..] + [Scheduled(TickMs, CountdownTask(count - 1))]) &&
        (count <= 0 ==>
          tapTimes == [] && listener == Running &&
          pending == old(pending)[1..] + [Scheduled(testDuration * 1000, StopListenerTask)])
      ensures old(pending) != [] && old(pending)[0].task == StopListenerTask ==>
        pending == old(pending)[1..] && tapTimes == old(tapTimes) &&
        (old(listener) == NotCreated ==> o == None && listener == NotCreated) &&
        (old(listener) != NotCreated ==>
          o == Some(Assess(tapTimes, baseline, std)) && listener == Stopped)
    {
      if pending == [] {
        return None;
      }
      var next := pending[0];
      pending := pending[1..];
      match next.task
      case CountdownTask(count) =>
        Countdown(count);
        o := None;
      case StopListenerTask =>
        o := StopListener(std);
    }
  }

  /** The taps after one key press: earlier taps are kept as they are, and
      one entry, the press time, is added exactly for the space bar. */
  function PressTimes(taps: seq<real>, key: Key, now: real): (r: seq<real>)
    ensures taps <= r
    ensures |r| <= |taps| + 1
    ensures |r| > |taps| <==> key == Space
    ensures |r| > |taps| ==> r[|taps|] == now
  {
    if key == Space then taps + [now] else taps
  }

  /** The times of the space-bar presses among `presses`, in order: every
      recorded time is the time of some space-bar press. */
  function SpaceTimes(presses: seq<(Key, real)>): (r: seq<real>)
    ensures |r| <= |presses|
    ensures forall t :: t in r ==> (Space, t) in presses
  {
    if |presses| == 0 then []
    else
      var init := presses[..|presses| - 1];
      assert forall p :: p in init ==> p in presses;
      PressTimes(SpaceTimes(init), presses[|presses| - 1].0, presses[|presses| - 1].1)
  }

  /** Only space-bar presses are counted: the recorded taps are exactly as
      many as the space-bar presses. */
  lemma {:induction false} SpaceTimesCount(presses: seq<(Key, real)>)
    ensures |SpaceTimes(presses)| == |set i | 0 <= i < |presses| && presses[i].0 == Space|
  {
    if |presses| > 0 {
      var n := |presses| - 1;
      var init := presses[..n];
      SpaceTimesCount(init);
      var before := set i | 0 <= i < n && init[i].0 == Space;
      var now := set i | 0 <= i < |presses| && presses[i].0 == Space;
      if presses[n].0 == Space {
        assert now == before + {n};
      } else {
        assert now == before;
      }
    }
  }

  /** The countdown as the event loop runs it: `start_test` and then the
      first `ticks` timer callbacks. Before the third tick the listener is
      left as it was, so nothing is recorded; the third tick starts the
      listener with an empty tap list and schedules the stop. */
  method RunCountdown(a: FingerTappingAnalyzer, ticks: nat)
    requires ticks <= CountdownStart
    requires a.pending == []
    requires a.listener != Running
    modifies a
    ensures a.tapTimes == []
    ensures ticks < CountdownStart ==>
      a.listener == old(a.listener) && a.listener != Running &&
      a.pending == [Scheduled(TickMs, CountdownTask(CountdownStart - 1 - ticks))]
    ensures ticks == CountdownStart ==>
      a.listener == Running &&
      a.pending == [Scheduled(a.testDuration * 1000, StopListenerTask)]
  {
    a.StartTest();
    for i := 0 to ticks
      invariant a.tapTimes == []
      invariant i < CountdownStart ==>
        a.listener == old(a.listener) &&
        a.pending == [Scheduled(TickMs, CountdownTask(CountdownStart - 1 - i))]
      invariant i == CountdownStart ==>
        a.listener == Running &&
        a.pending == [Scheduled(a.testDuration * 1000, StopListenerTask)]
    {
      var none := a.Fire(0.0);
    }
  }

  /** One complete run driven through the event loop: start, the three
      countdown ticks, the key presses while the listener runs, then the
      stop timer. The outcome is the analysis of exactly the space-bar
      presses. */
  method RunTest(a: FingerTappingAnalyzer, presses: seq<(Key, real)>, std: real) returns (o: Option<Outcome>)
    requires a.pending == []
    requires a.listener != Running
    requires |SpaceTimes(presses)| >= 2 ==> IsStd(Diff(SpaceTimes(presses)), std)
    modifies a
    ensures o == Some(Assess(SpaceTimes(presses), a.baseline, std))
    ensures a.tapTimes == SpaceTimes(presses)
    ensures a.listener == Stopped && a.pending == []
  {
    RunCountdown(a, CountdownStart);
    for k := 0 to |presses|
      invariant a.listener == Running
      invariant a.tapTimes == SpaceTimes(presses[..k])
      invariant a.pending == [Scheduled(a.testDuration * 1000, StopListenerTask)]
    {
      a.KeyPressed(presses[k].0, presses[k].1);
      assert presses[..k + 1][..k] == presses[..k];
    }
    assert presses[..|presses|] == presses;
    o := a.Fire(std);
  }
}
