/**
 * The trial-sequencing state machine of the response-time test window.
 *
 * A session runs `repeats` correctly answered trials of every test kind, kind
 * after kind. A trial is chosen (`StartTest`), its stimulus is presented two
 * seconds later (`PresentStimulus`, which stamps the onset time), and a
 * direction key scores it (`KeyResponse`): a wrong key retries the same trial,
 * a right key records it and moves on, and a key with no stimulus pending is
 * ignored. Once every trial is answered the averages are shown and the
 * results file is written (`ShowResults`).
 *
 * The window's delayed callbacks are pending `Timer`s; `FireTimer` runs one.
 * The clock reading (`now`, in seconds) and the randomly chosen direction are
 * parameters.
 */
module ResponseTime {
  import opened Wrappers
  import opened TrialPlan
  import opened Results
  import opened Symbols

  /** The test configuration: kinds in order, correct answers per kind, directions to draw from. */
  datatype Setup = Setup(types: seq<string>, repeats: int, directions: seq<string>)

  const TestSetup := Setup(
    ["Baseline", "Speech", "Audio", "Eyelids"],
    10,
    ["Forward", "Backward", "Left", "Right", "Stop"])

  /** A callback the window runs after a delay. */
  datatype Action = PresentStimulusAction | StartTestAction | QuitAction
  datatype Timer = After(delayMs: nat, action: Action)

  const PrepareDelayMs: nat := 2000
  const FeedbackDelayMs: nat := 1000
  const QuitDelayMs: nat := 100

  predicate OnlyQuit(timers: seq<Timer>)
  {
    forall t :: t in timers ==> t.action == QuitAction
  }

  class ResponseTimeTest {
    const testTypes: seq<string>
    const directions: seq<string>
    const repeats: int

    var currentTest: Option<string>
    var currentDirection: Option<string>
    var startTime: Option<real>
    var testCount: nat
    var results: seq<Record>

    /** Whether the start button accepts clicks. */
    var startEnabled: bool
    /** The text of the large symbol label. */
    var symbolText: string
    /** Delayed callbacks not yet run, in the order they were scheduled. */
    var timers: seq<Timer>
    /** The averages shown at the end, one per test kind. */
    var report: seq<real>
    /** The rows last written to the results file. */
    var csvRows: seq<Row>

    /** Number of correct answers that ends the session. */
    function TotalTrials(): nat
      reads this
    {
      Total(|testTypes|, repeats)
    }

    /** A key press is scored only while a (truthy) onset time is stored. */
    predicate Pending()
      reads this
    {
      startTime.Some? && startTime.value != 0.0
    }

    /** Counters and records: one record per correct answer, kinds in plan order. */
    ghost predicate Recorded()
      reads this
    {
      |results| == testCount
      && FollowsPlan(results, testTypes, repeats)
      && (forall i :: 0 <= i < |results| ==> results[i].direction in directions)
    }

    /** The trial in progress is the next one of the plan, with a configured direction. */
    ghost predicate TrialChosen()
      reads this
    {
      testCount < TotalTrials()
      && currentTest == Some(PlanKind(testTypes, repeats, testCount))
      && currentDirection.Some? && currentDirection.value in directions
    }

    /** Before the start button is clicked (or after it found nothing to do). */
    ghost predicate NotStarted()
      reads this
    {
      startEnabled && testCount == 0 && startTime.None? && OnlyQuit(timers)
      && (timers != [] ==> TotalTrials() == 0)
    }

    /** A trial is chosen; its stimulus comes after the preparation delay. */
    ghost predicate Preparing()
      reads this
    {
      !startEnabled && TrialChosen() && startTime.None?
      && timers == [After(PrepareDelayMs, PresentStimulusAction)]
    }

    /** The stimulus is out; a key press is awaited. */
    ghost predicate AwaitingResponse()
      reads this
    {
      !startEnabled && TrialChosen() && startTime.Some? && timers == []
    }

    /** A key was scored; the next trial starts after the feedback delay. */
    ghost predicate ShowingFeedback()
      reads this
    {
      !startEnabled && startTime.None? && timers == [After(FeedbackDelayMs, StartTestAction)]
    }

    /** Every trial is answered and the results are out. */
    ghost predicate Finished()
      reads this
    {
      !startEnabled && startTime.None? && testCount == TotalTrials() && OnlyQuit(timers)
    }

    ghost predicate Valid()
      reads this
    {
      Recorded()
      && (NotStarted() || Preparing() || AwaitingResponse() || ShowingFeedback() || Finished())
    }

    /** A new window, in the state it is in once the signalling device is connected. */
    constructor (setup: Setup)
      ensures Valid()
      ensures testTypes == setup.types && directions == setup.directions && repeats == setup.repeats
      ensures currentTest.None? && currentDirection.None? && startTime.None?
      ensures testCount == 0 && results == []
      ensures startEnabled && symbolText == "" && timers == [] && report == [] && csvRows == []
    {
      testTypes, directions, repeats := setup.types, setup.directions, setup.repeats;
      currentTest, currentDirection, startTime := None, None, None;
      testCount, results := 0, [];
      startEnabled, symbolText, timers := true, "", [];
      report, csvRows := [], [];
    }

    /** What `StartTest` leaves behind: the results and the file, or the next trial. */
    twostate predicate StartTestDone(direction: string)
      reads this
    {
      (old(testCount) >= |testTypes| * repeats ==>
        testCount == TotalTrials()
        && currentTest == old(currentTest) && currentDirection == old(currentDirection)
        && startEnabled == old(startEnabled) && symbolText == old(symbolText)
        && |report| == |testTypes|
        && (forall j :: 0 <= j < |testTypes| ==> report[j] == AverageFor(results, testTypes[j]))
        && csvRows == ExportTable(results))
      && (old(testCount) < |testTypes| * repeats ==>
        repeats > 0 && testCount / repeats < |testTypes|
        && currentTest == Some(testTypes[testCount / repeats])
        && currentDirection == Some(direction)
        && !startEnabled && symbolText == ""
        && report == old(report) && csvRows == old(csvRows))
    }

    /** The callback `StartTest` schedules: the window's close, or the chosen trial's stimulus. */
    function StartTestTimer(count: nat): Timer
      reads this
    {
      if count >= |testTypes| * repeats then After(QuitDelayMs, QuitAction)
      else After(PrepareDelayMs, PresentStimulusAction)
    }

    /** What `PresentStimulus` leaves behind: the onset time, and the glyph of a baseline trial. */
    twostate predicate PresentStimulusDone(now: real)
      reads this
    {
      startTime == Some(now)
      && currentTest == old(currentTest) && currentDirection == old(currentDirection)
      && symbolText ==
        (if currentTest == Some("Baseline") && currentDirection.Some? && SymbolFor(currentDirection.value).Some?
         then SymbolFor(currentDirection.value).value
         else old(symbolText))
    }

    /** The start button: a click does something only while the button is enabled. */
    method ClickStart(direction: string)
      requires Valid() && direction in directions
      modifies this
      ensures Valid()
      ensures !old(startEnabled) ==> unchanged(this)
      ensures old(startEnabled) ==> StartTestDone(direction) && timers == old(timers) + [StartTestTimer(old(testCount))]
      ensures results == old(results) && testCount == old(testCount)
    {
      if startEnabled {
        StartTest(direction);
      }
    }

    /**
     * Finishes the session once every trial is answered; otherwise chooses the
     * next trial, kind from the plan and the given (randomly drawn) direction,
     * and schedules its stimulus.
     */
    method StartTest(direction: string)
      requires Recorded() && startTime.None? && OnlyQuit(timers)
      requires timers != [] ==> testCount >= TotalTrials()
      requires startEnabled ==> testCount == 0
      requires direction in directions
      modifies this
      ensures Valid()
      ensures results == old(results) && testCount == old(testCount) && startTime == None
      ensures StartTestDone(direction)
      ensures timers == old(timers) + [StartTestTimer(old(testCount))]
    {
      GuardIsTotal(testCount, |testTypes|, repeats);
      if testCount >= |testTypes| * repeats {
        ShowResults();
        assert OnlyQuit(timers);
        assert Finished() || NotStarted();
        return;
      }
      BlockInRange(testCount, |testTypes|, repeats);
      currentTest := Some(testTypes[testCount / repeats]);
      currentDirection := Some(direction);
      startEnabled := false;
      symbolText := "";
      timers := timers + [After(PrepareDelayMs, PresentStimulusAction)];
      assert Preparing();
    }

    /** Stamps the stimulus onset; a baseline trial shows the direction's glyph. */
    method PresentStimulus(now: real)
      requires Recorded() && TrialChosen() && !startEnabled && startTime.None? && timers == []
      modifies this`startTime, this`symbolText
      ensures Valid() && AwaitingResponse()
      ensures PresentStimulusDone(now)
    {
      startTime := Some(now);
      if currentTest == Some("Baseline") {
        var symbol := SymbolFor(currentDirection.value);
        if symbol.Some? {
          symbolText := symbol.value;
        }
      }
    }

    /**
     * A direction key. Ignored unless an onset time is pending. A wrong key
     * schedules the same trial again; the right key records the trial with its
     * latency and counts it. Either way the onset time is cleared.
     */
    method KeyResponse(key: string, now: real)
      requires Valid()
      modifies this`startTime, this`results, this`testCount, this`symbolText, this`timers
      ensures Valid()
      ensures !old(Pending()) ==> unchanged(this)
      ensures old(Pending()) ==> startTime == None
      ensures old(Pending()) && Some(key) != old(currentDirection) ==>
        results == old(results) && testCount == old(testCount)
        && symbolText == old(symbolText)
        && timers == old(timers) + [After(FeedbackDelayMs, StartTestAction)]
      ensures old(Pending()) && Some(key) == old(currentDirection) ==>
        results == old(results) + [Record(old(currentTest).value, key, now - old(startTime).value)]
        && testCount == old(testCount) + 1
        && symbolText == ""
        && timers == old(timers) + [After(FeedbackDelayMs, StartTestAction)]
    {
      if Pending() {
        var responseTime := now - startTime.value;
        if Some(key) != currentDirection {
          timers := timers + [After(FeedbackDelayMs, StartTestAction)];
        } else {
          results := results + [Record(currentTest.value, currentDirection.value, responseTime)];
          symbolText := "";
          testCount := testCount + 1;
          timers := timers + [After(FeedbackDelayMs, StartTestAction)];
        }
        startTime := None;
      }
    }

    /**
     * The end of the session: the average latency of every kind, in the order
     * the kinds are listed, and the results file; the window closes shortly after.
     */
    method ShowResults()
      modifies this`report, this`csvRows, this`timers
      ensures |report| == |testTypes|
      ensures forall j :: 0 <= j < |testTypes| ==> report[j] == AverageFor(results, testTypes[j])
      ensures csvRows == ExportTable(results)
      ensures timers == old(timers) + [After(QuitDelayMs, QuitAction)]
    {
      report := KindAverages(testTypes, results);
      SaveResultsToCsv();
      timers := timers + [After(QuitDelayMs, QuitAction)];
    }

    /** Overwrites the results file with the header and one row per record. */
    method SaveResultsToCsv()
      modifies this`csvRows
      ensures csvRows == ExportTable(results)
    {
      csvRows := WriteRows(results);
    }

    /**
     * Runs pending callback `i` with the clock at `now`; a restarted trial
     * draws `direction`. Callbacks never record results.
     */
    method FireTimer(i: nat, now: real, direction: string)
      requires Valid() && i < |timers| && direction in directions
      modifies this
      ensures Valid()
      ensures results == old(results) && testCount == old(testCount)
      ensures old(timers[i].action) == PresentStimulusAction ==> PresentStimulusDone(now) && timers == []
      ensures old(timers[i].action) == StartTestAction ==>
        StartTestDone(direction) && timers == old(timers[..i] + timers[i + 1..]) + [StartTestTimer(old(testCount))]
      ensures old(timers[i].action) != StartTestAction ==>
        report == old(report) && csvRows == old(csvRows) && startEnabled == old(startEnabled)
      ensures old(timers[i].action) == QuitAction ==>
        timers == old(timers[..i] + timers[i + 1..]) && startTime == old(startTime)
        && currentTest == old(currentTest) && currentDirection == old(currentDirection)
        && symbolText == old(symbolText)
    {
      var action := timers[i].action;
      timers := timers[..i] + timers[i + 1..];
      match action
      case PresentStimulusAction =>
        PresentStimulus(now);
      case StartTestAction =>
        StartTest(direction);
      case QuitAction =>
    }
  }

  /**
   * At the end of a session of distinct kinds every kind has been answered
   * correctly exactly `repeats` times, so every average is over `repeats` samples.
   */
  lemma CompletedSessionSamples(t: ResponseTimeTest, j: nat)
    requires t.Valid() && t.Finished()
    requires Distinct(t.testTypes) && j < |t.testTypes| && t.repeats > 0
    ensures |LatenciesOf(t.results, t.testTypes[j])| == t.repeats
  {
    EachKindSampledRepeatsTimes(t.results, t.testTypes, t.repeats, j);
  }

  /** A key before any stimulus is ignored. */
  method StrayKeyIgnored()
  {
    var t := new ResponseTimeTest(TestSetup);
    t.KeyResponse("Stop", 5.0);
    assert t.results == [] && t.testCount == 0 && t.startEnabled && t.timers == [];
  }

  /** A right key after a baseline stimulus is recorded with its latency. */
  method FirstBaselineTrial()
  {
    var t := new ResponseTimeTest(Setup(["Baseline"], 2, ["Forward", "Stop"]));
    t.ClickStart("Stop");
    assert t.currentTest == Some("Baseline") && t.timers[0].action == PresentStimulusAction;
    t.FireTimer(0, 10.0, "Stop");
    assert t.currentDirection == Some("Stop") && SymbolFor("Stop") == Some("■");
    assert t.symbolText == "■";
    t.KeyResponse("Stop", 10.4);
    assert t.results == [Record("Baseline", "Stop", 0.4)] && t.testCount == 1;
  }

  /** A wrong key is not recorded and does not advance; the same kind is retried with a newly drawn direction. */
  method WrongKeyRetries()
  {
    var t := new ResponseTimeTest(Setup(["Baseline"], 1, ["Forward", "Stop"]));
    t.ClickStart("Forward");
    assert t.timers == [After(PrepareDelayMs, PresentStimulusAction)];
    t.FireTimer(0, 1.0, "Forward");
    assert t.startTime == Some(1.0) && t.currentDirection == Some("Forward");
    t.KeyResponse("Left", 1.3);
    assert t.results == [] && t.testCount == 0;
    assert t.timers == [After(FeedbackDelayMs, StartTestAction)];
    t.FireTimer(0, 2.3, "Stop");
    assert t.currentTest == Some("Baseline") && t.currentDirection == Some("Stop");
    assert t.results == [] && t.testCount == 0;
  }

  /** With no repeats the session has no trials: the start button goes straight to the results, all averages 0. */
  method NoRepeatsFinishAtOnce()
  {
    var t := new ResponseTimeTest(Setup(["Baseline", "Audio"], 0, ["Stop"]));
    t.ClickStart("Stop");
    assert t.timers == [After(QuitDelayMs, QuitAction)];
    assert t.report == [0.0, 0.0];
    assert t.csvRows == [Header];
  }

  /** Latencies of 0.40 s and 0.55 s for one kind average to 0.475 s; the file has a header and two rows. */
  lemma TwoTrialAverage()
    ensures AverageFor([Record("Baseline", "Stop", 0.4), Record("Baseline", "Forward", 0.55)], "Baseline") == 0.475
    ensures |ExportTable([Record("Baseline", "Stop", 0.4), Record("Baseline", "Forward", 0.55)])| == 3
  {
  }
}
