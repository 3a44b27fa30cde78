/** main.py: the run harness. It names the day's results file, makes sure
    the file has its header, then runs `test_expandable` once per registered
    driver `repeat` times and appends each batch of rows. The process pool is
    replaced by a sequential map in registration order, the order in which
    the pool hands back its results. */
module Harness {
  import opened Values
  import Decimal
  import opened Helpers
  import opened Drivers
  import opened Expandable

  const ScenarioName: string := "test_expandable"

  const Header: Row := [
    Text("Passed"), Text("Browser"), Text("Execution time"), Text("Error"),
    Text("Filename"), Text("Line"), Text("Function"), Text("Error code")
  ]

  // ---------------------------------------------------------------------
  // The results file name

  datatype Date = Date(year: int, month: int, day: int)

  predicate IsLeapYear(year: int)
  {
    year % 4 == 0 && (year % 100 != 0 || year % 400 == 0)
  }

  function DaysInMonth(year: int, month: int): int
  {
    if month == 2 then (if IsLeapYear(year) then 29 else 28)
    else if month == 4 || month == 6 || month == 9 || month == 11 then 30
    else 31
  }

  /** `date.today()`: a calendar date, here with a four-digit year. */
  type CalendarDate = d: Date |
    1000 <= d.year <= 9999 && 1 <= d.month <= 12 && 1 <= d.day <= DaysInMonth(d.year, d.month)
    witness Date(2000, 1, 1)

  const LogPrefix: string := "test_history/" + ScenarioName + "_"

  /** `date.strftime("%d_%m_%Y")`: two-digit day and month, then the year. */
  function DateStamp(d: CalendarDate): (stamp: string)
    ensures |stamp| == 10 && stamp[2] == '_' && stamp[5] == '_'
  {
    DateFieldsFit(d);
    var dd, mm, yyyy := Decimal.ZeroPadded(d.day, 2), Decimal.ZeroPadded(d.month, 2), Decimal.Text(d.year);
    StampLayout(dd, mm, yyyy);
    dd + "_" + mm + "_" + yyyy
  }

  /** The day and the month take two digits, a four-digit year four. */
  lemma DateFieldsFit(d: CalendarDate)
    ensures |Decimal.ZeroPadded(d.day, 2)| == 2 && |Decimal.ZeroPadded(d.month, 2)| == 2
    ensures |Decimal.Text(d.year)| == 4
  {
    assert Decimal.Pow10(2) == 100 && Decimal.Pow10(3) == 1000 && Decimal.Pow10(4) == 10000;
    Decimal.PaddedFits(d.day, 2);
    Decimal.PaddedFits(d.month, 2);
    Decimal.TextLength(d.year, 4);
    Decimal.TextLengthAbove(d.year, 3);
  }

  /** Where the underscores of `DD_MM_YYYY` sit and the fields between them. */
  lemma StampLayout(dd: string, mm: string, yyyy: string)
    requires |dd| == 2 && |mm| == 2 && |yyyy| == 4
    ensures var stamp := dd + "_" + mm + "_" + yyyy;
      |stamp| == 10 && stamp[2] == '_' && stamp[5] == '_' &&
      stamp[..2] == dd && stamp[3..5] == mm && stamp[6..] == yyyy
  {
    var stamp := dd + "_" + mm + "_" + yyyy;
    assert stamp[..2] == dd;
    assert stamp[3..5] == mm;
    assert stamp[6..] == yyyy;
  }

  /** The results file of a day: `test_history/test_expandable_DD_MM_YYYY.csv`. */
  function LogPath(today: CalendarDate): (path: string)
    ensures |path| == 43
    ensures path[..29] == LogPrefix && path[39..] == ".csv"
  {
    var stamp := DateStamp(today);
    PathLayout(stamp);
    LogPrefix + stamp + ".csv"
  }

  /** Where the stamp sits in a results file name. */
  lemma PathLayout(stamp: string)
    requires |stamp| == 10
    ensures var path := LogPrefix + stamp + ".csv";
      |path| == 43 && path[..29] == LogPrefix && path[29..39] == stamp && path[39..] == ".csv"
  {
    var path := LogPrefix + stamp + ".csv";
    assert |LogPrefix| == 29;
    assert path[..29] == LogPrefix;
    assert path[29..39] == stamp;
  }

  /** Reads the date back out of a results file name. */
  function ParseLogPath(path: string): Option<Date>
  {
    if |path| != 43 || path[..29] != LogPrefix || path[39..] != ".csv" then None
    else
      var stamp := path[29..39];
      if stamp[2] != '_' || stamp[5] != '_' then None
      else DateFields(stamp[..2], stamp[3..5], stamp[6..])
  }

  function DateFields(dd: string, mm: string, yyyy: string): Option<Date>
  {
    if Decimal.AllDigits(dd) && Decimal.AllDigits(mm) && Decimal.AllDigits(yyyy)
    then Some(Date(Decimal.NumberOf(yyyy), Decimal.NumberOf(mm), Decimal.NumberOf(dd)))
    else None
  }

  lemma ReadsDate(d: CalendarDate)
    ensures DateFields(Decimal.ZeroPadded(d.day, 2), Decimal.ZeroPadded(d.month, 2), Decimal.Text(d.year)) ==
      Some(d)
  {
  }

  /** The file name gives back the date it was made from. */
  lemma LogPathRoundTrip(d: CalendarDate)
    ensures ParseLogPath(LogPath(d)) == Some(d)
  {
    DateFieldsFit(d);
    var dd, mm, yyyy := Decimal.ZeroPadded(d.day, 2), Decimal.ZeroPadded(d.month, 2), Decimal.Text(d.year);
    StampLayout(dd, mm, yyyy);
    PathLayout(DateStamp(d));
    ReadsDate(d);
  }

  /** Each calendar day has its own results file. */
  lemma LogPathInjective(d1: CalendarDate, d2: CalendarDate)
    requires LogPath(d1) == LogPath(d2)
    ensures d1 == d2
  {
    LogPathRoundTrip(d1);
    LogPathRoundTrip(d2);
  }

  // ---------------------------------------------------------------------
  // Batches of rows

  /** `list(AvailableBrowserDrivers.values())`: the driver classes in
      registration order, each tagging its rows with its registry name. */
  function RegisteredDrivers(): (kinds: seq<BrowserKind>)
    ensures kinds == [Chrome, Firefox]
    ensures |kinds| == |AvailableBrowserDrivers|
    ensures forall j :: 0 <= j < |kinds| ==> BrowserName(kinds[j]) == AvailableBrowserDrivers[j].0
  {
    DriverClasses(AvailableBrowserDrivers)
  }

  function DriverClasses(entries: seq<(string, BrowserKind)>): (kinds: seq<BrowserKind>)
    ensures |kinds| == |entries| && forall j :: 0 <= j < |entries| ==> kinds[j] == entries[j].1
  {
    if entries == [] then [] else [entries[0].1] + DriverClasses(entries[1..])
  }

  /** What each call depends on, by repetition and by driver position. */
  type Runs = (nat, nat) -> RunInput

  /** What the call for registered driver j in repetition i gives. */
  function CallOf(env: Runs, i: nat, j: nat): Invocation
    requires j < |RegisteredDrivers()|
  {
    RecordOf(RegisteredDrivers()[j], env(i, j))
  }

  /** The calls of one repetition for the first j registered drivers. */
  function Records(iteration: nat, env: Runs, j: nat): (rs: seq<Invocation>)
    requires j <= |RegisteredDrivers()|
    ensures |rs| == j
  {
    if j == 0 then []
    else Records(iteration, env, j - 1) + [CallOf(env, iteration, j - 1)]
  }

  /** Call k of a repetition is the one of registered driver k. */
  lemma {:induction false} RecordsInOrder(iteration: nat, env: Runs, j: nat)
    requires j <= |RegisteredDrivers()|
    ensures forall k :: 0 <= k < j ==> Records(iteration, env, j)[k] == CallOf(env, iteration, k)
  {
    if j > 0 {
      RecordsInOrder(iteration, env, j - 1);
    }
  }

  /** Gathering the results in order: every row, or the first exception
      in order, which is what listing the pool's results raises. */
  function Collect(invs: seq<Invocation>): (r: Result<seq<Row>>)
    ensures r.Ok? ==> |r.value| == |invs|
  {
    if invs == [] then Ok([])
    else match invs[0]
      case Propagated(e) => Err(e)
      case Returned(row) =>
        match Collect(invs[1..])
        case Err(e) => Err(e)
        case Ok(rows) => Ok([row] + rows)
  }

  /** Gathering gives every row, in order, exactly when every call returned
      one; otherwise it raises the exception of the first call that let
      one through. */
  lemma {:induction false} CollectGathers(invs: seq<Invocation>)
    ensures Collect(invs).Ok? <==> forall k :: 0 <= k < |invs| ==> invs[k].Returned?
    ensures Collect(invs).Ok? ==>
      |Collect(invs).value| == |invs| && forall k :: 0 <= k < |invs| ==> Collect(invs).value[k] == invs[k].row
    ensures Collect(invs).Err? ==>
      exists k :: 0 <= k < |invs| && invs[k] == Propagated(Collect(invs).error) &&
                  forall m :: 0 <= m < k ==> invs[m].Returned?
  {
    if invs != [] {
      var rest := invs[1..];
      CollectGathers(rest);
      if invs[0].Returned? {
        assert forall k :: 1 <= k < |invs| ==> invs[k] == rest[k - 1];
        if Collect(rest).Err? {
          var k :| 0 <= k < |rest| && rest[k] == Propagated(Collect(rest).error) &&
                   forall m :: 0 <= m < k ==> rest[m].Returned?;
          assert invs[k + 1] == rest[k];
        }
      } else {
        assert invs[0] == Propagated(Collect(invs).error);
      }
    }
  }

  /** The result of one repetition. */
  function Batch(iteration: nat, env: Runs): Result<seq<Row>>
  {
    Collect(Records(iteration, env, |RegisteredDrivers()|))
  }

  /** `list(executor.map(test_expandable, drivers))`, run one driver after
      the other. */
  method RunBatch(iteration: nat, paths: DriverPaths, env: Runs) returns (batch: Result<seq<Row>>)
    ensures batch == Batch(iteration, env)
  {
    var drivers := RegisteredDrivers();
    var results: seq<Invocation> := [];
    var journal := new Journal();
    var j := 0;
    while j < |drivers|
      invariant 0 <= j <= |drivers|
      invariant results == Records(iteration, env, j)
    {
      var result := TestExpandable(drivers[j], paths, env(iteration, j), journal);
      results := results + [result];
      j := j + 1;
    }
    batch := Collect(results);
  }

  // ---------------------------------------------------------------------
  // The whole run

  /** What repetition i appends to a run that has not raised, and how it
      ends: a batch that raised appends nothing and ends the run; otherwise
      `append_to_csv_file` writes the batch's rows. */
  function Repetition(i: nat, env: Runs): (w: Write)
    ensures w.status.Raised? ==> w.rows == [] && Batch(i, env).Err?
    ensures w.status.Done? ==> |w.rows| == |RegisteredDrivers()|
  {
    match Batch(i, env)
    case Err(e) => Write([], Raised(e))
    case Ok(rows) =>
      WritesAllLists(rows);
      AppendedRows(Lists(rows))
  }

  /** Every repetition of a run on env, by number. */
  function Schedule(env: Runs): nat -> Write
  {
    (i: nat) => Repetition(i, env)
  }

  /** The first k repetitions of a run, repetition m doing rep(m): each
      appends its rows, and the first exception ends the run with the rows
      appended so far. */
  function Run(k: nat, rep: nat -> Write): (r: Write)
    ensures r.status.Done? ==> forall m: nat :: m < k ==> rep(m).status.Done?
  {
    if k == 0 then Write([], Done)
    else
      var prev := Run(k - 1, rep);
      if prev.status.Raised? then prev
      else Write(prev.rows + rep(k - 1).rows, rep(k - 1).status)
  }

  /** What the first k repetitions of a run append, and how they end. */
  function Iterations(k: nat, env: Runs): Write
  {
    Run(k, Schedule(env))
  }

  /** One pass of the loop in `main`: run the batch, then append its rows.
      rep stands for the repetitions of env, so that the loop below is
      stated without unfolding a batch. */
  method RunRepetition(store: FileStore, path: string, i: nat, paths: DriverPaths, env: Runs,
                       ghost rep: nat -> Write)
    returns (status: Status, ghost w: Write)
    requires path in store.files
    requires forall m: nat {:trigger Repetition(m, env)} :: rep(m) == Repetition(m, env)
    modifies store
    ensures w == rep(i)
    ensures store.files == old(store.files)[path := old(store.files)[path] + w.rows] && status == w.status
  {
    w := Repetition(i, env);
    var batch := RunBatch(i, paths, env);
    match batch {
      case Err(e) =>
        status := Raised(e);
        assert old(store.files)[path] + [] == old(store.files)[path];
        assert store.files == old(store.files)[path := old(store.files)[path]];
      case Ok(rows) =>
        status := AppendToCsvFile(store, path, Lists(rows));
    }
  }

  /** The loop in `main`: `repeat` repetitions, stopping at the first
      exception. */
  method RunRepetitions(store: FileStore, path: string, paths: DriverPaths, env: Runs,
                        ghost rep: nat -> Write, repeat: int)
    returns (status: Status)
    requires path in store.files
    requires forall m: nat {:trigger Repetition(m, env)} :: rep(m) == Repetition(m, env)
    modifies store
    ensures var run := Run(if repeat > 0 then repeat else 0, rep);
      store.files == old(store.files)[path := old(store.files)[path] + run.rows] &&
      status == run.status
  {
    ghost var start := store.files[path];
    assert start + [] == start;
    status := Done;
    var i := 0;
    while i < repeat && status == Done
      invariant 0 <= i <= (if repeat > 0 then repeat else 0)
      invariant status == Run(i, rep).status
      invariant store.files == old(store.files)[path := start + Run(i, rep).rows]
    {
      ghost var w;
      status, w := RunRepetition(store, path, i, paths, env, rep);
      assert start + Run(i, rep).rows + w.rows == start + Run(i + 1, rep).rows;
      i := i + 1;
    }
    RunSettles(i, if repeat > 0 then repeat else 0, rep);
  }

  /** `main(repeat)`. The results file starts as it was, or as the header
      alone when it did not exist; the rows of the run follow. */
  method RunHarness(store: FileStore, today: CalendarDate, paths: DriverPaths, env: Runs, repeat: int := 1)
    returns (status: Status)
    modifies store
    ensures var path := LogPath(today);
      var run := Iterations(if repeat > 0 then repeat else 0, env);
      store.files == old(store.files)[path := WithHeader(old(store.files), path, Header)[path] + run.rows] &&
      status == run.status
  {
    ghost var before := store.files;
    var path := LogPath(today);
    CreateCsvFile(store, path, Header);
    ScheduleFollows(env);
    status := RunRepetitions(store, path, paths, env, Schedule(env), repeat);
    ghost var rows := Iterations(if repeat > 0 then repeat else 0, env).rows;
    AppendAfterHeader(before, path, rows);
  }

  /** Schedule(env) gives every repetition of a run on env. */
  lemma ScheduleFollows(env: Runs)
    ensures forall m: nat {:trigger Repetition(m, env)} :: Schedule(env)(m) == Repetition(m, env)
  {
  }

  /** Appending to the file just made sure of overwrites the same entry. */
  lemma AppendAfterHeader(files: map<string, seq<Row>>, path: string, rows: seq<Row>)
    ensures var made := WithHeader(files, path, Header);
      made[path := made[path] + rows] == files[path := made[path] + rows]
  {
  }

  /** After the first exception further repetitions change nothing, so the
      loop of `main` may stop there. */
  lemma {:induction false} RunSettles(k: nat, total: nat, rep: nat -> Write)
    requires k <= total
    requires k < total ==> Run(k, rep).status.Raised?
    ensures Run(total, rep) == Run(k, rep)
  {
    if k < total {
      RunSettles(k, total - 1, rep);
    }
  }

  /** Rows appended earlier are never changed by later repetitions. */
  lemma {:induction false} RowsKept(k: nat, m: nat, rep: nat -> Write)
    requires k <= m
    ensures Run(k, rep).rows <= Run(m, rep).rows
  {
    if k < m {
      RowsKept(k, m - 1, rep);
    }
  }

  /** Rows a run has written stay as they are whatever it does next. */
  lemma EarlierRowsKept(k: nat, m: nat, env: Runs)
    requires k <= m
    ensures Iterations(k, env).rows <= Iterations(m, env).rows
  {
    RowsKept(k, m, Schedule(env));
  }

  /** When every repetition appends two rows and does not raise, the rows
      are laid out two per repetition, in order. */
  lemma {:induction false} RunInBlocks(k: nat, rep: nat -> Write)
    requires forall m: nat :: m < k ==> rep(m).status == Done && |rep(m).rows| == 2
    ensures var run := Run(k, rep);
      run.status == Done && |run.rows| == 2 * k &&
      forall i, j :: 0 <= i < k && 0 <= j < 2 ==> run.rows[2 * i + j] == rep(i).rows[j]
  {
    if k > 0 {
      RunInBlocks(k - 1, rep);
      var prev := Run(k - 1, rep).rows;
      var last := rep(k - 1).rows;
      forall i, j | 0 <= i < k && 0 <= j < 2
        ensures (prev + last)[2 * i + j] == rep(i).rows[j]
      {
        if i == k - 1 {
          assert (prev + last)[2 * i + j] == last[j];
        }
      }
    }
  }

  /** Both driver sessions of repetition i start. */
  predicate RepetitionStarts(env: Runs, i: nat)
  {
    env(i, 0).launch.Launches? && env(i, 1).launch.Launches?
  }

  /** Every driver session of the first k repetitions starts. */
  predicate SessionsStart(env: Runs, k: nat)
  {
    forall i: nat :: i < k ==> RepetitionStarts(env, i)
  }

  /** When both its driver sessions start, a repetition appends one row per
      registered driver, in registration order, and does not raise. */
  lemma RepetitionRows(i: nat, env: Runs)
    requires RepetitionStarts(env, i)
    ensures var w := Repetition(i, env);
      w.status == Done && |w.rows| == 2 &&
      forall j :: 0 <= j < 2 ==> Returned(w.rows[j]) == CallOf(env, i, j)
  {
    var invs := Records(i, env, |RegisteredDrivers()|);
    RecordsInOrder(i, env, |RegisteredDrivers()|);
    CollectGathers(invs);
    assert forall j :: 0 <= j < |invs| ==> invs[j].Returned?;
    AppendBatch(Batch(i, env).value);
  }

  /** When every session of the first k repetitions starts, each of them
      appends two rows and does not raise. */
  lemma ScheduleRows(k: nat, env: Runs)
    requires SessionsStart(env, k)
    ensures forall m: nat :: m < k ==> Schedule(env)(m).status == Done && |Schedule(env)(m).rows| == 2
  {
    forall m: nat | m < k
      ensures Schedule(env)(m).status == Done && |Schedule(env)(m).rows| == 2
    {
      RepetitionRows(m, env);
    }
  }

  /** When both sessions of repetition i start, row j of it is what the
      call for registered driver j returned. */
  lemma ScheduledCall(env: Runs, i: nat, j: nat)
    requires RepetitionStarts(env, i)
    requires j < 2
    ensures |Schedule(env)(i).rows| == 2 && Returned(Schedule(env)(i).rows[j]) == CallOf(env, i, j)
  {
    RepetitionRows(i, env);
  }

  /** When every session of the first k repetitions starts, each of them
      appends one row per registered driver, in registration order: twice
      as many rows as repetitions, and the run ends normally. */
  lemma EveryRowWritten(k: nat, env: Runs)
    requires SessionsStart(env, k)
    ensures var run := Iterations(k, env);
      run.status == Done && |run.rows| == 2 * k &&
      forall i, j :: 0 <= i < k && 0 <= j < 2 ==> Returned(run.rows[2 * i + j]) == CallOf(env, i, j)
  {
    ScheduleRows(k, env);
    RunInBlocks(k, Schedule(env));
    forall i, j | 0 <= i < k && 0 <= j < 2
      ensures Returned(Iterations(k, env).rows[2 * i + j]) == CallOf(env, i, j)
    {
      ScheduledCall(env, i, j);
    }
  }

  /** A row as wide as the results header whose browser column holds the
      name registry entry j is registered under. */
  predicate RegisteredRow(row: Row, j: nat)
    requires j < |AvailableBrowserDrivers|
  {
    |row| == |Header| && row[1] == Text(AvailableBrowserDrivers[j].0)
  }

  /** Row j of repetition i, in a run laid out two rows per repetition, is a
      registered row for driver j. */
  predicate RegisteredRowAt(rows: seq<Row>, i: nat, j: nat)
    requires j < 2 && 2 * i + j < |rows|
  {
    RegisteredRow(rows[2 * i + j], j)
  }

  /** The rows of k repetitions whose sessions all start carry the browser
      names of the registry, in registration order, and fill the header's
      columns. */
  lemma RowsInRegistrationOrder(k: nat, env: Runs)
    requires SessionsStart(env, k)
    ensures var rows := Iterations(k, env).rows;
      |rows| == 2 * k &&
      forall i, j :: 0 <= i < k && 0 <= j < 2 ==> RegisteredRowAt(rows, i, j)
  {
    EveryRowWritten(k, env);
    var rows := Iterations(k, env).rows;
    forall i, j | 0 <= i < k && 0 <= j < 2
      ensures RegisteredRowAt(rows, i, j)
    {
      assert Returned(rows[2 * i + j]) == CallOf(env, i, j);
      CallLayout(env, i, j);
    }
  }

  /** A call whose session starts returns a full row tagged with the name
      the driver is registered under. */
  lemma CallLayout(env: Runs, i: nat, j: nat)
    requires env(i, j).launch.Launches? && j < 2
    ensures CallOf(env, i, j).Returned? && RegisteredRow(CallOf(env, i, j).row, j)
  {
  }

  /** A repetition that ends normally had both its driver sessions start:
      a session that fails propagates out of the batch. */
  lemma RepetitionDone(i: nat, env: Runs)
    ensures Repetition(i, env).status.Done? ==> RepetitionStarts(env, i)
  {
    if Repetition(i, env).status.Done? {
      var invs := Records(i, env, |RegisteredDrivers()|);
      RecordsInOrder(i, env, |RegisteredDrivers()|);
      CollectGathers(invs);
      assert invs[0].Returned? && invs[1].Returned?;
    }
  }

  /** A run of k repetitions ends normally exactly when every driver session
      in it starts, and it then appends two rows per repetition. */
  lemma RunCompletes(k: nat, env: Runs)
    ensures Iterations(k, env).status.Done? <==> SessionsStart(env, k)
    ensures Iterations(k, env).status.Done? ==> |Iterations(k, env).rows| == 2 * k
  {
    if SessionsStart(env, k) {
      EveryRowWritten(k, env);
    }
    if Iterations(k, env).status.Done? {
      forall i: nat | i < k
        ensures RepetitionStarts(env, i)
      {
        assert Schedule(env)(i).status.Done?;
        RepetitionDone(i, env);
      }
    }
  }
}
