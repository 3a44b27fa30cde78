# Expandable-element test harness, modelled in Dafny

The repository drives a browser through a test scenario with Selenium (an
"expandable" element on a web page is opened and checked). Around the
browser steps sits a small sequential core, which this project models and
proves things about:

- **`TimeMeasure`** (`usefull/helpers.py`). A stopwatch whose fields are
  written by `start`, by `stop` and even by its `elapsed_seconds` getter.
  `seconds_to_time_string` turns a duration into `H:MM:SS`.
- **The results table** (`create_csv_file` and `append_to_csv_file`). A
  csv file is seen as a table of rows. The header goes in only when the
  file is absent. Appending adds a batch or a single row, depending on
  `data[0]`.
- **`test_expandable`** (`test_expandable.py`). It builds one driver with
  the first registered user agent and times the scenario. It turns the
  scenario's outcome into an 8-field row. Its `finally` stops the timer
  and closes the driver.
- **`main`** (`main.py`). It names the day's results file and makes sure
  the header exists. It then runs `test_expandable` once per registered
  driver, `repeat` times, and appends each batch of rows.
- **Option building** (`usefull/driver.py`). It covers `get_driver`, the
  arguments and preferences that the two driver constructors and their
  `headless`/`user_agent` setters put into the options object, and the
  driver registry.

Files:

- `values.dfy`: cells of a row, `Option`/`Result`, and how a call ends.
- `decimal.dfy`: `%d`/`%0Nd` decimal text and its value.
- `helpers.dfy`: the stopwatch, the duration text and the results table.
  The table is a `FileStore` class whose `files` map is updated in place.
- `driver.dfy`: `get_driver`, the options, and the `Driver` class with
  both constructors and the setters.
- `expandable.dfy`: `test_expandable` as a method.
  - `RecordOf` is its row specification.
  - `TraceOf` is the order of its observable steps. Each step (launch, timer start, scenario, elapsed read, timer stop, close) is a small method that adds itself to a ghost `Journal` and states the state change it makes.
- `harness.dfy`: the log path, a batch, the loop of `main`, and `Run`,
  the specification of the whole run.

**Time.** Clock readings (`datetime.now().timestamp()`) are parameters.
They are whole hundredths of a second (`Instant`, always positive), so
`round(x, 2)` is exact. The timer stores hundredths too.

**The environment.** How a scenario ends (success, or an exception with
its four site fields) and whether a Selenium session starts are inputs
too, given per repetition and per driver.

## Model

| member | source | states |
|---|---|---|
| Helpers.WholeSeconds | usefull/helpers.py:115 | `int()` of a duration truncates toward zero on both sides. The result is a whole number of seconds within one second of the input, and equals it exactly when the input is whole. |
| Helpers.TimeMeasure.constructor | usefull/helpers.py:73-82 | A fresh timer has start, end and elapsed all 0. |
| Helpers.TimeMeasure.ElapsedSeconds | usefull/helpers.py:84-90 | While end is 0 the getter returns now - start; once stopped it returns end - start. Either way it overwrites the stored elapsed time with what it returns and leaves start and end alone, so every read after `stop` gives the same value. |
| Helpers.TimeMeasure.SetElapsedSeconds | usefull/helpers.py:92-94 | The setter stores its value and changes nothing else. |
| Helpers.TimeMeasure.Start | usefull/helpers.py:96-105 | Start records the clock reading as the start and returns it. |
| Helpers.TimeMeasure.Stop | usefull/helpers.py:107-119 | Stop records the end. It returns end - start, and that is also what stays stored. The truncated whole seconds it first stores are overwritten by the getter reads before it returns. |
| Helpers.ClockText | usefull/helpers.py:129 | Below one day, timedelta's `H:MM:SS` has 7 or 8 characters and no dot. Its colons sit 6 and 3 characters from the end, and the part before the first colon is the unpadded hour count. |
| Helpers.ClockRoundTrip | usefull/helpers.py:121-129 | Reading `H:MM:SS` back gives the whole seconds it was made from. The minute and second fields are two-digit numbers below 60. |
| Helpers.Fraction | usefull/helpers.py:129 | timedelta shows a fraction only for a non-whole number of seconds. The fraction is `.` followed by six digits, which spell the microseconds (hundredths × 10000). |
| Helpers.TimedeltaText | usefull/helpers.py:129 | `str(timedelta(...))` below one day: `H:MM:SS`, then seven more characters starting with `.` exactly when the seconds are not whole. The text has a dot exactly then. |
| Helpers.BeforeFirstDot | usefull/helpers.py:129 | `split(".")[0]` returns the longest prefix without a dot. The next character, if any, is a dot. |
| Helpers.CutsAtDot | usefull/helpers.py:129 | Cutting at the first dot removes exactly a tail that starts with a dot from a dot-free text. |
| Helpers.TimeMeasure.SecondsToTimeString | usefull/helpers.py:121-129 | The duration text never has a fractional part. It is exactly the `H:MM:SS` of the input's whole seconds. |
| Helpers.TimeStringRoundTrip | usefull/helpers.py:121-129 | The duration text reads back as the whole seconds of the input. |
| Helpers.ChopsOnlyFraction | usefull/helpers.py:129 | For whole seconds the text is timedelta's own. Otherwise timedelta's text is this text followed by `.` and six digits. |
| Helpers.WithHeader | usefull/helpers.py:44-48 | An absent file becomes exactly `[header]` and no other file changes. A present file keeps its rows. |
| Helpers.HeaderIdempotent | usefull/helpers.py:36-48 | Creating the file again, with any header, changes nothing. |
| Helpers.CreateCsvFile | usefull/helpers.py:36-48 | The store becomes WithHeader of what it was. |
| Helpers.AsRow | usefull/helpers.py:63 | csv iterates a list as its items and a str as one cell per character. Any other value is not iterable. |
| Helpers.Chars | usefull/helpers.py:63 | A str iterated as a csv row gives one single-character cell per character, in order. |
| Helpers.WriterRows | usefull/helpers.py:63 | Each element is written as a row, in order, until the first one that is not iterable. That element raises csv's `Error`. Every element is written exactly when none raises. |
| Helpers.AppendedRows | usefull/helpers.py:59-65 | Empty data raises `IndexError` with nothing written. A non-list first element appends data as one row. A list first element appends the rows `writerows` gives. |
| Helpers.AppendToCsvFile | usefull/helpers.py:51-65 | The file's old rows stay and the rows of AppendedRows follow them. An absent file is created even when the write then fails. |
| Helpers.Lists | main.py:33 | The batch is a list holding one list per row, in order. |
| Helpers.WritesAllLists | usefull/helpers.py:62-63 | `writerows` over lists writes every list as a row, in order, and does not raise. |
| Helpers.AppendBatch | usefull/helpers.py:59-63 | A non-empty batch of rows is appended whole, in order, without an exception. |
| Drivers.JoinPath | usefull/driver.py:32 | POSIX `os.path.join`: an absolute second part replaces the first. Otherwise the result starts with the directory and ends with the name, with one `/` between them when needed. When the directory is empty or already ends with `/`, nothing is added between them. |
| Drivers.GetDriver | usefull/driver.py:20-32 | An empty listing raises `IndexError`. Otherwise the result is JoinPath of the directory and the first listed name. |
| Drivers.DefaultPaths | usefull/driver.py:128-189 | The `executable_path` defaults are `get_driver` of `drivers/chrome` and of `drivers/gecko`. Loading the module raises `IndexError` when either directory is empty. |
| Drivers.BrowserOptions.AddArgument | usefull/driver.py:164-166 | `add_argument` appends one argument at the end and leaves the preferences alone. |
| Drivers.BrowserOptions.SetPreference | usefull/driver.py:238 | `set_preference` sets one preference and leaves the arguments alone. |
| Drivers.HeadlessArguments | usefull/driver.py:161-169 | Headless adds `headless` first; Chrome also adds the window-size argument (two in all), Firefox nothing more (lines 222-226). Not headless adds nothing. |
| Drivers.UserAgentArguments | usefull/driver.py:175-178 | Only Chrome with a non-empty agent gets an argument, exactly `--user-agent=<agent>`. Firefox uses a preference instead (lines 235-238). |
| Drivers.BuiltArguments | usefull/driver.py:146-212 | Without caller options, Chrome has `--user-agent=<agent>` (only for a non-empty agent) before `headless`, `--window-size=1920,1080` (only when headless). Firefox has only `headless`, and only when headless. |
| Drivers.BuiltPreferences | usefull/driver.py:235-238 | Firefox with a non-empty agent has exactly the `general.useragent.override` preference. Chrome, or no agent, has none. |
| Drivers.Driver.ChromeDriver | usefull/driver.py:125-155 | Browser is `chrome` with implicit wait 10 by default. Caller options are kept untouched. Otherwise fresh options get the user agent, then the headless arguments. |
| Drivers.Driver.FirefoxDriver | usefull/driver.py:186-216 | Browser is `firefox` with implicit wait 15 by default. Caller options are kept untouched, otherwise headless comes before the user agent. The window ends at 360x640 in every case. |
| Drivers.Driver.SetHeadless | usefull/driver.py:161-169 | Headless appends `headless` and, for Chrome, `--window-size=1920,1080`. Firefox's setter (lines 222-226) instead sets the plain `window_size` attribute. Not headless adds nothing. |
| Drivers.Driver.SetUserAgent | usefull/driver.py:175-178 | A non-empty agent becomes a Chrome argument, or the Firefox preference (lines 235-238). A missing or empty agent adds nothing. |
| Drivers.Driver.Close | test_expandable.py:94 | Each `close` call is counted once. |
| Expandable.ExpectedSession | test_expandable.py:84 | The driver built with an agent has the registered browser name and binary, no headless arguments, the default wait, and the agent as a Chrome argument or a Firefox preference. |
| Expandable.RecordOf | test_expandable.py:87-95 | A failed session start propagates its exception and gives no row. A completed scenario gives `[1, browser, end - start, "", "", "", "", ""]`. A raised one gives `[0, browser, now - start, type]` plus the four site fields. Every row has 8 fields. |
| Expandable.AfterStart | test_expandable.py:87-95 | After the timer starts there are four steps: the scenario, and one stop and one close among them. |
| Expandable.TraceOf | test_expandable.py:84-95 | A call takes six steps when the session starts and none otherwise. |
| Expandable.TimerStartsAfterLaunch | test_expandable.py:84-86 | The timer starts right after the driver is built, so building is not timed. A failed build does nothing else. |
| Expandable.StopAndCloseOnce | test_expandable.py:92-94 | The timer is stopped and the driver closed exactly once on both paths. Neither happens when the driver could not be built. |
| Expandable.AfterStartOnce | test_expandable.py:89-95 | After the timer starts, each path holds one stop and one close. |
| Expandable.ElapsedReadSides | test_expandable.py:89-95 | The failure path reads the elapsed time (now - start) before the stop. The success path reads it (end - start) after. |
| Expandable.BuildDriver | test_expandable.py:84 | `driver_class(user_agent=...)` gives a fresh, unclosed driver configured as ExpectedSession says, and journals its launch with that configuration. |
| Expandable.StartTimer | test_expandable.py:85-86 | `timer.start()` sets the start to the clock reading and journals that start. |
| Expandable.PlayScenario | test_expandable.py:88 | The scenario journals whether it completed or which exception it raised. |
| Expandable.ReadElapsed | test_expandable.py:91 | A getter read gives now - start while the timer runs and end - start once stopped, and journals the value read. |
| Expandable.StopTimer | test_expandable.py:93 | `timer.stop()` sets the end to the clock reading and journals that stop. |
| Expandable.CloseDriver | test_expandable.py:94 | `driver.close()` adds one to the close count and journals the close. |
| Expandable.TimeScenario | test_expandable.py:85-95 | From the timer on, the method returns RecordOf's row. It journals exactly the start and AfterStart's steps, and closes the driver exactly once. |
| Expandable.TestExpandable | test_expandable.py:83-84 | The call uses the first entry of `AvailableUserAgents`. It returns RecordOf and journals exactly the steps of TraceOf. |
| Expandable.TestWithAgent | test_expandable.py:84-95 | Once the agent is chosen, the method returns RecordOf's row or exception and journals exactly TraceOf's steps, in order. A driver exists exactly when the session started, and it was closed exactly once. |
| Harness.DateStamp | main.py:25 | `%d_%m_%Y` has 10 characters with underscores at positions 2 and 5. |
| Harness.LogPath | main.py:26 | The results path is `test_history/test_expandable_` + stamp + `.csv`, 43 characters long. |
| Harness.LogPathRoundTrip | main.py:25-26 | The file name gives back the date it was made from. Day and month are zero-padded and the year has four digits. |
| Harness.LogPathInjective | main.py:25-26 | Different days get different results files. |
| Harness.RegisteredDrivers | main.py:14 | The drivers are Chrome then Firefox, one per registry entry, each tagged with the name it is registered under. |
| Harness.DriverClasses | main.py:14 | `dict.values()` keeps the registry's order. |
| Harness.RecordsInOrder | main.py:33 | Call k of a repetition is the call of registered driver k. |
| Harness.Collect | main.py:33 | Listing the results either gives one row per call or raises. |
| Harness.CollectGathers | main.py:33 | Listing the results gives every row in order exactly when every call returned one. Otherwise it raises the exception of the first call, in registration order, that let one through. |
| Harness.RunBatch | main.py:32-33 | One repetition's calls, in registration order, gathered as Batch specifies. |
| Harness.Repetition | main.py:32-34 | A repetition that raises appends nothing and its batch raised. One that ends normally appends one row per registered driver. |
| Harness.Run | main.py:31-34 | A run that ends normally had every one of its repetitions end normally. |
| Harness.RunRepetition | main.py:32-34 | A batch that raised appends nothing and ends with its exception. Otherwise its rows are appended after the file's rows. |
| Harness.RunRepetitions | main.py:31-34 | The loop appends, after the file's rows, what the first `repeat` repetitions of Run append. It ends as Run ends. A non-positive `repeat` changes nothing. |
| Harness.RunHarness | main.py:17-34 | The day's file is created with the header when absent and kept otherwise. The rows of the run follow, and `main` ends as the run does. |
| Harness.AppendAfterHeader | main.py:29-34 | The rows are appended to the file as the header step left it. Other files stay as they were. |
| Harness.RunSettles | main.py:31-34 | After the first exception no further repetition changes anything. |
| Harness.RowsKept | main.py:31-34 | Rows appended by earlier repetitions are a prefix of what later ones leave. |
| Harness.EarlierRowsKept | main.py:31-34 | Earlier rows of a run are never changed. |
| Harness.RunInBlocks | main.py:31-34 | When every repetition appends two rows without raising, the rows lie two per repetition, in order. |
| Harness.RepetitionRows | main.py:33-34 | When both of its sessions start, a repetition appends one row per registered driver, in registration order, and does not raise. |
| Harness.EveryRowWritten | main.py:31-34 | When every session of the first k repetitions starts, those k repetitions append k × 2 rows without raising. Row j of repetition i is what the call for driver j returned. |
| Harness.RowsInRegistrationOrder | main.py:27-34 | When every session of the first k repetitions starts, each appended row is as wide as the header, and its browser cell names the registry entry of its position. |
| Harness.RepetitionDone | main.py:33 | A repetition that ends normally had both its driver sessions start. |
| Harness.RunCompletes | main.py:31-34 | k repetitions end normally exactly when all their driver sessions start. They then append exactly k × 2 rows. |
| Harness.CallLayout | usefull/driver.py:242-245 | A call whose session starts returns an 8-field row whose browser cell is its driver's registry name. |

## Left out

- Selenium itself is not modelled: session start, `close`, page navigation and the waits of `BaseDriver` (`usefull/driver.py:35-117`). A session start that fails is an input exception; `close` is a counter.
- `test_scenario` is not modelled. Its outcome (success, or an exception type with four site fields) is an input.
- `analyse_error` (`usefull/helpers.py:13-33`) is not modelled. Its traceback lookup and printing are replaced by the site fields given as input.
- The process pool in `main` is replaced by a sequential map in registration order. The order in which the pool hands back results is the order modelled. Concurrency and the pool's own failures are not.
- Floating point is not modelled. Durations are whole hundredths of a second, where `round(x, 2)` is exact.
- CSV quoting, encodings and directories are not modelled. A file is its table of rows; a directory listing is a sequence of names.
- Logging callbacks and `print` output are not modelled.
- The `headless` and `user_agent` getters are not modelled. They read attributes that nothing assigns.
- The `get_driver` defaults of both constructors are evaluated when the driver module loads (`Drivers.DefaultPaths`). `TestExpandable` and `RunHarness` take the resulting `DriverPaths` as a parameter.
- `Harness.DateStamp`, `Harness.LogPath`: years are limited to 1000-9999. That is where `%Y` has exactly four digits.
- `Helpers.TimeMeasure.SecondsToTimeString`: durations are limited to 0 up to one day. timedelta's `N day(s), ` prefix and negative durations are not modelled.
- `Harness.RunHarness`: `repeat` repetitions with the environment as a function of (repetition, driver position). The schedule of repetitions is passed to the loop as a ghost function, so that the loop is proved without unfolding a batch.
