/** test_expandable.py: `test_expandable`, which runs the scenario once on a
    fresh driver, times it and turns its outcome into one result row. The
    scenario's browser steps are not modelled; how it ends is an input. */
module Expandable {
  import opened Values
  import opened Helpers
  import opened Drivers

  /** Where an exception was raised: `analyse_error`'s four fields. */
  datatype Site = Site(filename: string, line: int, func: string, code: string)

  /** How `test_scenario(driver)` ends. */
  datatype ScenarioOutcome = Completes | Raises(exceptionType: string, site: Site)

  /** How the Selenium session behind the driver constructor ends. */
  datatype Launch = Launches | LaunchFails(exceptionType: string)

  /** Everything one call depends on besides the driver class: the session
      start, the scenario's outcome, and the clock at each timer call (timer
      start, the getter read on failure, timer stop, and the getter read
      after `finally`, where a stopped timer does not consult the clock). */
  datatype RunInput = RunInput(
    launch: Launch,
    outcome: ScenarioOutcome,
    started: Instant,
    failed: Instant,
    stopped: Instant,
    read: Instant)

  /** How `test_expandable` ends: a returned row, or an exception it lets through. */
  datatype Invocation = Returned(row: Row) | Propagated(exceptionType: string)

  /** The driver configuration the repository's code sets up. */
  datatype Session = Session(
    browser: string,
    executablePath: string,
    arguments: seq<string>,
    preferences: map<string, string>,
    implicitWait: int,
    window: Option<Size>,
    windowSize: Option<Size>)

  /** The observable steps of one call, in order. */
  datatype Event =
    | Launched(session: Session)
    | TimerStarted(at: int)
    | ScenarioCompleted
    | ScenarioRaised(exceptionType: string)
    | ElapsedRead(value: int)
    | TimerStopped(at: int)
    | Closed

  /** Every row has as many fields as the results header. */
  const RowWidth: nat := 8

  function SiteCells(site: Site): Row
  {
    [Text(site.filename), Int(site.line), Text(site.func), Text(site.code)]
  }

  function PathFor(kind: BrowserKind, paths: DriverPaths): string
  {
    match kind
    case Chrome => paths.chrome
    case Firefox => paths.gecko
  }

  /** The driver `test_expandable` builds with the given user agent: not
      headless, default waits and no caller options. */
  function ExpectedSession(kind: BrowserKind, paths: DriverPaths, agent: string): (s: Session)
    ensures s.browser == BrowserName(kind) && s.executablePath == PathFor(kind, paths)
    ensures s.windowSize == None
    ensures kind == Chrome ==>
      s.arguments == (if agent != "" then ["--user-agent=" + agent] else []) && s.preferences == map[] &&
      s.implicitWait == 10 && s.window == None
    ensures kind == Firefox ==>
      s.arguments == [] && s.preferences == (if agent != "" then map[UserAgentPreference := agent] else map[]) &&
      s.implicitWait == 15 && s.window == Some(Size(360, 640))
  {
    Session(BrowserName(kind), PathFor(kind, paths),
            BuiltArguments(kind, Some(agent), false), BuiltPreferences(kind, Some(agent)),
            if kind == Chrome then ChromeImplicitWait else FirefoxImplicitWait,
            if kind == Chrome then None else Some(PhoneWindow),
            None)
  }

  /** The row or exception one call produces. */
  function RecordOf(kind: BrowserKind, run: RunInput): (r: Invocation)
    ensures r.Propagated? <==> run.launch.LaunchFails?
    ensures r.Propagated? ==> r.exceptionType == run.launch.exceptionType
    ensures r.Returned? ==> |r.row| == RowWidth && r.row[1] == Text(BrowserName(kind))
    ensures r.Returned? && run.outcome.Completes? ==>
      r.row[0] == Int(1) &&
      r.row[2] == Centi(run.stopped - run.started) &&
      r.row[3..] == [Text(""), Text(""), Text(""), Text(""), Text("")]
    ensures r.Returned? && run.outcome.Raises? ==>
      r.row[0] == Int(0) &&
      r.row[2] == Centi(run.failed - run.started) &&
      r.row[3] == Text(run.outcome.exceptionType) &&
      r.row[4..] == SiteCells(run.outcome.site)
    ensures r.Returned? && run.started <= run.failed && run.started <= run.stopped ==>
      r.row[2].hundredths >= 0
  {
    match run.launch
    case LaunchFails(e) => Propagated(e)
    case Launches =>
      var browser := Text(BrowserName(kind));
      match run.outcome
      case Completes =>
        Returned([Int(1), browser, Centi(run.stopped - run.started),
                  Text(""), Text(""), Text(""), Text(""), Text("")])
      case Raises(name, site) =>
        Returned([Int(0), browser, Centi(run.failed - run.started), Text(name)] + SiteCells(site))
  }

  /** The steps after the timer has started: the except branch reads the
      elapsed time before `finally` stops the timer and closes the driver;
      a successful run reads it after `finally`. */
  function AfterStart(run: RunInput): seq<Event>
  {
    match run.outcome
    case Completes =>
      [ScenarioCompleted, TimerStopped(run.stopped), Closed, ElapsedRead(run.stopped - run.started)]
    case Raises(name, _) =>
      [ScenarioRaised(name), ElapsedRead(run.failed - run.started), TimerStopped(run.stopped), Closed]
  }

  /** The steps one call takes, in order. */
  function TraceOf(kind: BrowserKind, paths: DriverPaths, agent: string, run: RunInput): seq<Event>
  {
    match run.launch
    case LaunchFails(_) => []
    case Launches => [Launched(ExpectedSession(kind, paths, agent)), TimerStarted(run.started)] + AfterStart(run)
  }

  /** The timer starts right after the driver is built, so building it is
      not timed; when building fails nothing else happens. */
  lemma TimerStartsAfterLaunch(kind: BrowserKind, paths: DriverPaths, agent: string, run: RunInput)
    ensures var t := TraceOf(kind, paths, agent, run);
      (run.launch.LaunchFails? <==> t == []) &&
      (run.launch.Launches? ==>
        |t| == 6 && t[0] == Launched(ExpectedSession(kind, paths, agent)) && t[1] == TimerStarted(run.started))
  {
  }

  /** `finally` stops the timer and closes the driver exactly once on both
      paths, and never when the driver could not be built. */
  lemma StopAndCloseOnce(kind: BrowserKind, paths: DriverPaths, agent: string, run: RunInput)
    ensures var t := TraceOf(kind, paths, agent, run);
      var once := if run.launch.Launches? then 1 else 0;
      multiset(t)[Closed] == once && multiset(t)[TimerStopped(run.stopped)] == once
  {
    if run.launch.Launches? {
      var head := [Launched(ExpectedSession(kind, paths, agent)), TimerStarted(run.started)];
      var rest := AfterStart(run);
      assert multiset(head + rest) == multiset(head) + multiset(rest);
      assert multiset(head)[Closed] == 0 && multiset(head)[TimerStopped(run.stopped)] == 0;
      AfterStartOnce(run);
    }
  }

  lemma AfterStartOnce(run: RunInput)
    ensures multiset(AfterStart(run))[Closed] == 1
    ensures multiset(AfterStart(run))[TimerStopped(run.stopped)] == 1
  {
    var t := AfterStart(run);
    CountOfFour(t, Closed);
    CountOfFour(t, TimerStopped(run.stopped));
  }

  lemma CountOfFour(t: seq<Event>, e: Event)
    requires |t| == 4
    ensures multiset(t)[e] ==
      (if t[0] == e then 1 else 0) + (if t[1] == e then 1 else 0) +
      (if t[2] == e then 1 else 0) + (if t[3] == e then 1 else 0)
  {
    assert t == [t[0]] + [t[1]] + [t[2]] + [t[3]];
  }

  /** A failed run reads the elapsed time (now - start) before the timer
      stops; a successful one reads it (end - start) after. */
  lemma ElapsedReadSides(kind: BrowserKind, paths: DriverPaths, agent: string, run: RunInput)
    requires run.launch.Launches?
    ensures var t := TraceOf(kind, paths, agent, run);
      |t| == 6 &&
      (run.outcome.Raises? ==>
        t[3] == ElapsedRead(run.failed - run.started) && t[4] == TimerStopped(run.stopped)) &&
      (run.outcome.Completes? ==>
        t[3] == TimerStopped(run.stopped) && t[5] == ElapsedRead(run.stopped - run.started))
  {
  }

  function Snapshot(d: Driver): Session
    reads d, d.options
  {
    Session(d.browser, d.executablePath, d.options.arguments, d.options.preferences,
            d.implicitWait, d.window, d.windowSize)
  }

  /** The observable steps of one call so far, in order. Each step method
      below adds the step it takes, as the state it leaves shows it. */
  class Journal {
    ghost var events: seq<Event>

    constructor()
      ensures events == []
    {
      events := [];
    }
  }

  /** `driver_class(user_agent=user_agent)` once the session starts. */
  method BuildDriver(kind: BrowserKind, paths: DriverPaths, userAgent: string, journal: Journal)
    returns (driver: Driver)
    modifies journal
    ensures fresh(driver) && fresh(driver.options)
    ensures driver.browser == BrowserName(kind) && driver.closeCount == 0
    ensures Snapshot(driver) == ExpectedSession(kind, paths, userAgent)
    ensures journal.events == old(journal.events) + [Launched(Snapshot(driver))]
  {
    if kind == Chrome {
      driver := new Driver.ChromeDriver(paths.chrome, userAgent := Some(userAgent));
    } else {
      driver := new Driver.FirefoxDriver(paths.gecko, userAgent := Some(userAgent));
    }
    journal.events := journal.events + [Launched(Snapshot(driver))];
  }

  /** `timer.start()`. */
  method StartTimer(timer: TimeMeasure, now: Instant, journal: Journal) returns (r: int)
    modifies timer, journal
    ensures timer.startTime == now && r == now
    ensures timer.endTime == old(timer.endTime) && timer.elapsed == old(timer.elapsed)
    ensures journal.events == old(journal.events) + [TimerStarted(timer.startTime)]
  {
    r := timer.Start(now);
    journal.events := journal.events + [TimerStarted(timer.startTime)];
  }

  /** `test_scenario(driver)`, whose outcome is given. */
  method PlayScenario(outcome: ScenarioOutcome, journal: Journal)
    modifies journal
    ensures journal.events == old(journal.events) +
      [if outcome.Completes? then ScenarioCompleted else ScenarioRaised(outcome.exceptionType)]
  {
    match outcome {
      case Completes =>
        journal.events := journal.events + [ScenarioCompleted];
      case Raises(name, _) =>
        journal.events := journal.events + [ScenarioRaised(name)];
    }
  }

  /** Reading `timer.elapsed_seconds`. */
  method ReadElapsed(timer: TimeMeasure, now: Instant, journal: Journal) returns (r: int)
    modifies timer, journal
    ensures timer.startTime == old(timer.startTime) && timer.endTime == old(timer.endTime)
    ensures r == (if timer.endTime == 0 then now else timer.endTime) - timer.startTime
    ensures journal.events == old(journal.events) + [ElapsedRead(r)]
  {
    r := timer.ElapsedSeconds(now);
    journal.events := journal.events + [ElapsedRead(r)];
  }

  /** `timer.stop()` in `finally`. */
  method StopTimer(timer: TimeMeasure, now: Instant, journal: Journal)
    modifies timer, journal
    ensures timer.startTime == old(timer.startTime) && timer.endTime == now
    ensures journal.events == old(journal.events) + [TimerStopped(timer.endTime)]
  {
    var elapsed := timer.Stop(now);
    journal.events := journal.events + [TimerStopped(timer.endTime)];
  }

  /** `driver.close()` in `finally`. */
  method CloseDriver(driver: Driver, journal: Journal)
    modifies driver`closeCount, journal
    ensures driver.closeCount == old(driver.closeCount) + 1
    ensures journal.events == old(journal.events) + [Closed]
  {
    driver.Close();
    journal.events := journal.events + [Closed];
  }

  /** `test_expandable(driver_class)`: the first registered user agent, then
      the run itself. */
  method TestExpandable(kind: BrowserKind, paths: DriverPaths, run: RunInput, journal: Journal)
    returns (result: Invocation)
    modifies journal
    ensures result == RecordOf(kind, run)
    ensures journal.events == old(journal.events) + TraceOf(kind, paths, AvailableUserAgents[0], run)
  {
    var userAgent := AvailableUserAgents[0];
    var driver;
    result, driver := TestWithAgent(kind, paths, userAgent, run, journal);
  }

  /** The body of `test_expandable` once the user agent is chosen: build the
      driver, time the scenario, and build the row in the except branch or
      after `finally`. The driver it built, if any, is handed back so that
      its close count can be stated. */
  method TestWithAgent(kind: BrowserKind, paths: DriverPaths, userAgent: string, run: RunInput,
                       journal: Journal)
    returns (result: Invocation, driver: Driver?)
    modifies journal
    ensures result == RecordOf(kind, run)
    ensures journal.events == old(journal.events) + TraceOf(kind, paths, userAgent, run)
    ensures driver == null <==> run.launch.LaunchFails?
    ensures driver != null ==> fresh(driver) && driver.closeCount == 1
  {
    if run.launch.LaunchFails? {
      // The constructor raises outside the try: no timer, no close, no row.
      return Propagated(run.launch.exceptionType), null;
    }
    driver := BuildDriver(kind, paths, userAgent, journal);
    result := TimeScenario(kind, driver, run, journal);
  }

  /** From `timer = TimeMeasure()` on: time the scenario, build the row in
      the except branch or after `finally`, and stop the timer and close
      the driver in `finally`. */
  method TimeScenario(kind: BrowserKind, driver: Driver, run: RunInput, journal: Journal)
    returns (result: Invocation)
    requires run.launch.Launches? && driver.browser == BrowserName(kind)
    modifies driver`closeCount, journal
    ensures result == RecordOf(kind, run)
    ensures driver.closeCount == old(driver.closeCount) + 1
    ensures journal.events == old(journal.events) + [TimerStarted(run.started)] + AfterStart(run)
  {
    var timer := new TimeMeasure();
    var startedAt := StartTimer(timer, run.started, journal);
    PlayScenario(run.outcome, journal);
    match run.outcome {
      case Raises(name, site) =>
        // The except branch builds its row before `finally` runs.
        var elapsed := ReadElapsed(timer, run.failed, journal);
        result := Returned([Int(0), Text(driver.browser), Centi(elapsed), Text(name)] + SiteCells(site));
        StopTimer(timer, run.stopped, journal);
        CloseDriver(driver, journal);
      case Completes =>
        StopTimer(timer, run.stopped, journal);
        CloseDriver(driver, journal);
        // After `finally`: the timer is stopped, so this read gives
        // end - start whatever the clock says.
        var elapsed := ReadElapsed(timer, run.read, journal);
        result := Returned([Int(1), Text(driver.browser), Centi(elapsed),
                            Text(""), Text(""), Text(""), Text(""), Text("")]);
    }
  }
}
