/** usefull/driver.py: where a driver binary is found, the option objects
    the Chrome and Firefox drivers build, and the registry of drivers. The
    Selenium session itself is outside the model: a `Driver` keeps the
    configuration the repository's own code sets up and counts `close` calls. */
module Drivers {
  import opened Values

  datatype BrowserKind = Chrome | Firefox

  datatype Size = Size(width: int, height: int)

  const ChromeDirectory: string := "drivers/chrome"
  const GeckoDirectory: string := "drivers/gecko"

  const ChromeImplicitWait: int := 10
  const FirefoxImplicitWait: int := 15

  /** The window the Firefox driver always ends with, a phone-sized one. */
  const PhoneWindow: Size := Size(360, 640)

  const UserAgentPreference: string := "general.useragent.override"

  /** `AvailableUserAgents` */
  const AvailableUserAgents: seq<string> := [
    "Mozilla/5.0 (iPhone; U; CPU iPhone OS 3_0 like Mac OS X; en-us) AppleWebKit/528.18 (KHTML, like Gecko) Version/4.0 Mobile/7A341 Safari/528.16"
  ]

  /** `AvailableBrowserDrivers`: name to driver class, in insertion order. */
  const AvailableBrowserDrivers: seq<(string, BrowserKind)> := [("chrome", Chrome), ("firefox", Firefox)]

  /** The `browser` tag each driver class sets on itself. */
  function BrowserName(kind: BrowserKind): string
  {
    match kind
    case Chrome => "chrome"
    case Firefox => "firefox"
  }

  function StartsWith(s: string, prefix: string): bool
  {
    |prefix| <= |s| && s[..|prefix|] == prefix
  }

  function EndsWith(s: string, suffix: string): bool
  {
    |suffix| <= |s| && s[|s| - |suffix|..] == suffix
  }

  /** `os.path.join(a, b)` on POSIX: an absolute b replaces a; otherwise one
      `/` separates them unless a is empty or already ends with one. */
  function JoinPath(a: string, b: string): (r: string)
    ensures EndsWith(r, b)
    ensures StartsWith(b, "/") ==> r == b
    ensures !StartsWith(b, "/") ==> StartsWith(r, a)
    ensures !StartsWith(b, "/") && a != [] && !EndsWith(a, "/") ==> |r| == |a| + 1 + |b| && r[|a|] == '/'
    ensures !StartsWith(b, "/") && (a == [] || EndsWith(a, "/")) ==> |r| == |a| + |b|
  {
    if StartsWith(b, "/") then b
    else if a == [] || EndsWith(a, "/") then a + b
    else a + "/" + b
  }

  /** `get_driver`: the directory joined with the first name its listing
      gives; an empty directory raises `IndexError`. */
  function GetDriver(directory: string, listing: seq<string>): (r: Result<string>)
    ensures r.Err? <==> listing == []
    ensures r.Err? ==> r.error == "IndexError"
    ensures r.Ok? ==> EndsWith(r.value, listing[0])
    ensures r.Ok? ==> r.value == JoinPath(directory, listing[0])
    ensures r.Ok? && !StartsWith(listing[0], "/") ==> StartsWith(r.value, directory)
  {
    if listing == [] then Err("IndexError") else Ok(JoinPath(directory, listing[0]))
  }

  /** Where the two driver classes find their binaries. */
  datatype DriverPaths = DriverPaths(chrome: string, gecko: string)

  /** The `executable_path` defaults, computed by `get_driver` when the
      driver module is loaded: Chrome's directory first, then Firefox's.
      Loading fails with `IndexError` when either directory is empty. */
  function DefaultPaths(chromeListing: seq<string>, geckoListing: seq<string>): (r: Result<DriverPaths>)
    ensures r.Err? <==> chromeListing == [] || geckoListing == []
    ensures r.Err? ==> r.error == "IndexError"
    ensures r.Ok? ==>
      r.value.chrome == JoinPath(ChromeDirectory, chromeListing[0]) &&
      r.value.gecko == JoinPath(GeckoDirectory, geckoListing[0])
  {
    match GetDriver(ChromeDirectory, chromeListing)
    case Err(e) => Err(e)
    case Ok(chrome) =>
      match GetDriver(GeckoDirectory, geckoListing)
      case Err(e) => Err(e)
      case Ok(gecko) => Ok(DriverPaths(chrome, gecko))
  }

  /** A user agent counts only when it is truthy: given and not empty. */
  predicate Truthy(agent: Option<string>)
  {
    agent.Some? && agent.value != ""
  }

  /** The arguments the `headless` setter adds. */
  function HeadlessArguments(kind: BrowserKind, headless: bool): (args: seq<string>)
    ensures |args| == (if !headless then 0 else if kind == Chrome then 2 else 1)
    ensures headless ==> args[0] == "headless"
    ensures "headless" in args <==> headless
  {
    if !headless then []
    else match kind
      case Chrome => ["headless", "--window-size=1920,1080"]
      case Firefox => ["headless"]
  }

  /** The arguments the `user_agent` setter adds (Firefox uses a preference). */
  function UserAgentArguments(kind: BrowserKind, agent: Option<string>): (args: seq<string>)
    ensures args != [] <==> kind == Chrome && Truthy(agent)
    ensures args != [] ==> args == ["--user-agent=" + agent.value] && "headless" !in args
  {
    if kind == Chrome && Truthy(agent) then ["--user-agent=" + agent.value] else []
  }

  /** The arguments a driver built without caller options ends with: Chrome
      runs the user-agent setter before the headless one, Firefox the other
      way round. */
  function BuiltArguments(kind: BrowserKind, agent: Option<string>, headless: bool): (args: seq<string>)
    ensures "headless" in args <==> headless
    ensures kind == Chrome ==>
      |args| == (if Truthy(agent) then 1 else 0) + (if headless then 2 else 0)
    ensures kind == Chrome && Truthy(agent) ==> args[0] == "--user-agent=" + agent.value
    ensures kind == Chrome && headless ==>
      args[|args| - 2..] == ["headless", "--window-size=1920,1080"]
    ensures kind == Firefox ==> args == (if headless then ["headless"] else [])
  {
    match kind
    case Chrome =>
      assert Truthy(agent) ==> ("--user-agent=" + agent.value)[0] == '-';
      UserAgentArguments(Chrome, agent) + HeadlessArguments(Chrome, headless)
    case Firefox =>
      HeadlessArguments(Firefox, headless) + UserAgentArguments(Firefox, agent)
  }

  /** The preferences a driver built without caller options ends with. */
  function BuiltPreferences(kind: BrowserKind, agent: Option<string>): (prefs: map<string, string>)
    ensures kind == Chrome ==> prefs == map[]
    ensures kind == Firefox && Truthy(agent) ==> prefs == map[UserAgentPreference := agent.value]
    ensures !Truthy(agent) ==> prefs == map[]
  {
    if kind == Firefox && Truthy(agent) then map[UserAgentPreference := agent.value] else map[]
  }

  /** Selenium's `Options`/`FirefoxOptions`, as far as this code uses them. */
  class BrowserOptions {
    var arguments: seq<string>
    var preferences: map<string, string>

    constructor()
      ensures arguments == [] && preferences == map[]
    {
      arguments, preferences := [], map[];
    }

    method AddArgument(argument: string)
      modifies this
      ensures arguments == old(arguments) + [argument]
      ensures preferences == old(preferences)
    {
      arguments := arguments + [argument];
    }

    method SetPreference(name: string, value: string)
      modifies this
      ensures preferences == old(preferences)[name := value]
      ensures arguments == old(arguments)
    {
      preferences := preferences[name := value];
    }
  }

  /** `ChromeDriver` and `FirefoxDriver`. */
  class Driver {
    const kind: BrowserKind
    var browser: string
    var options: BrowserOptions
    var executablePath: string
    /** What `implicitly_wait` was given. */
    var implicitWait: int
    /** What `set_window_size` was given, if it was called. */
    var window: Option<Size>
    /** The plain `window_size` attribute Firefox's headless setter writes;
        nothing reads it. */
    var windowSize: Option<Size>
    /** How many times `close` was called. */
    var closeCount: nat

    /** `ChromeDriver(...)`. Caller options are used as they are; otherwise
        fresh options get the user agent, then the headless arguments. */
    constructor ChromeDriver(executablePath: string, headless: bool := false,
                             implicitWait: int := ChromeImplicitWait,
                             userAgent: Option<string> := None,
                             options: BrowserOptions? := null)
      ensures kind == Chrome && browser == BrowserName(Chrome)
      ensures this.executablePath == executablePath && this.implicitWait == implicitWait
      ensures window == None && windowSize == None && closeCount == 0
      ensures options != null ==> this.options == options && unchanged(options)
      ensures options == null ==> fresh(this.options)
      ensures options == null ==>
        this.options.arguments == BuiltArguments(Chrome, userAgent, headless) &&
        this.options.preferences == BuiltPreferences(Chrome, userAgent)
    {
      kind, browser := Chrome, "chrome";
      var opts: BrowserOptions;
      if options != null {
        opts := options;
      } else {
        opts := new BrowserOptions();
      }
      this.options := opts;
      this.executablePath, this.implicitWait := executablePath, implicitWait;
      window, windowSize, closeCount := None, None, 0;
      new;
      if options == null {
        SetUserAgent(userAgent);
        SetHeadless(headless);
      }
    }

    /** `FirefoxDriver(...)`. Caller options are used as they are; otherwise
        fresh options get the headless argument, then the user-agent
        preference. The window is phone-sized in every case. */
    constructor FirefoxDriver(executablePath: string, headless: bool := false,
                              implicitWait: int := FirefoxImplicitWait,
                              userAgent: Option<string> := None,
                              options: BrowserOptions? := null)
      ensures kind == Firefox && browser == BrowserName(Firefox)
      ensures this.executablePath == executablePath && this.implicitWait == implicitWait
      ensures window == Some(PhoneWindow) && closeCount == 0
      ensures windowSize == (if options == null && headless then Some(Size(1920, 1080)) else None)
      ensures options != null ==> this.options == options && unchanged(options)
      ensures options == null ==> fresh(this.options)
      ensures options == null ==>
        this.options.arguments == BuiltArguments(Firefox, userAgent, headless) &&
        this.options.preferences == BuiltPreferences(Firefox, userAgent)
    {
      kind, browser := Firefox, "firefox";
      var opts: BrowserOptions;
      if options != null {
        opts := options;
      } else {
        opts := new BrowserOptions();
      }
      this.options := opts;
      this.executablePath, this.implicitWait := executablePath, implicitWait;
      window, windowSize, closeCount := None, None, 0;
      new;
      if options == null {
        SetHeadless(headless);
        SetUserAgent(userAgent);
      }
      window := Some(PhoneWindow);
    }

    /** The `headless` setter. */
    method SetHeadless(isHeadless: bool)
      modifies options, this`windowSize
      ensures options.arguments == old(options.arguments) + HeadlessArguments(kind, isHeadless)
      ensures options.preferences == old(options.preferences)
      ensures windowSize == if isHeadless && kind == Firefox then Some(Size(1920, 1080)) else old(windowSize)
    {
      if isHeadless {
        options.AddArgument("headless");
        if kind == Chrome {
          options.AddArgument("--window-size=1920,1080");
        } else {
          windowSize := Some(Size(1920, 1080));
        }
      }
    }

    /** The `user_agent` setter. */
    method SetUserAgent(agent: Option<string>)
      modifies options
      ensures options.arguments == old(options.arguments) + UserAgentArguments(kind, agent)
      ensures kind == Chrome ==> options.preferences == old(options.preferences)
      ensures kind == Firefox ==> (options.preferences ==
        if Truthy(agent) then old(options.preferences)[UserAgentPreference := agent.value]
        else old(options.preferences))
    {
      if Truthy(agent) {
        if kind == Chrome {
          options.AddArgument("--user-agent=" + agent.value);
        } else {
          options.SetPreference(UserAgentPreference, agent.value);
        }
      }
    }

    /** `close()`: ends the browser session. */
    method Close()
      modifies this`closeCount
      ensures closeCount == old(closeCount) + 1
    {
      closeCount := closeCount + 1;
    }
  }
}
