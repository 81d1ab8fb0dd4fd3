/** `DriverFactory`: maps a browser profile to a Playwright engine, builds the launch and context
    options from the profile and the framework configuration, and creates the browser with a bounded
    retry loop that cleans up after every failed attempt.
    Playwright is outside the model: `env(k, step)` says what step `step` of attempt `k` returned
    (a fresh handle, or the message of the exception it raised), and `closes(h)` whether closing
    handle `h` succeeds. */
module Driver {
  import opened Wrappers
  import opened Text
  import opened Values

  /** An opaque Playwright object: the driver, a browser, a context or a page. */
  type Handle = nat

  datatype Engine = Chromium | Firefox | WebKit

  /** The Playwright calls one attempt makes, in order. */
  datatype Step = StartPlaywright | LaunchBrowser(engine: Engine, options: Entries) | NewContext(options: Entries) | NewPage

  /** The four objects the factory holds. */
  datatype Handles = Handles(playwright: Option<Handle>, browser: Option<Handle>, context: Option<Handle>, page: Option<Handle>)

  /** The page-level timeout setters `_apply_timeouts` calls. */
  datatype TimeoutCall = SetDefaultTimeout(ms: int) | SetDefaultNavigationTimeout(ms: int)

  /** What `get_driver` does besides talking to Playwright: sleeping before a retry, starting an attempt. */
  datatype Event = Slept(seconds: Value) | Attempted(attempt: nat)

  const NoHandles := Handles(None, None, None, None)

  const RemoteNotImplemented :=
    "Remote browser execution is not yet implemented. Please use local execution or implement remote connection logic."

  /** `browser_type_map.get(name, 'chromium')` */
  function EngineOf(name: string): Engine {
    if name == "chromium" || name == "chrome" || name == "msedge" || name == "edge" then Chromium
    else if name == "firefox" then Firefox
    else if name == "webkit" || name == "safari" then WebKit
    else Chromium
  }

  /** `_get_browser_type_name`: `browserName` (default "chromium") lower-cased and mapped. */
  function BrowserTypeName(profile: Entries): Result<Engine, Exception> {
    match GetOr(profile, "browserName", Str("chromium"))
    case Str(s) => Ok(EngineOf(Lower(s)))
    case v => Err(NoAttribute(v, "lower"))
  }

  /** The engine mapping works on the lower-cased name, so every spelling of a name maps alike:
      chromium, chrome, msedge and edge give chromium, firefox gives firefox, webkit and safari give
      webkit, any other name gives chromium, and so does a profile without `browserName`. A name that
      is not a string raises. */
  lemma EngineMapping(profile: Entries, s: string, v: Value, rest: Entries)
    ensures !HasKey(profile, "browserName") ==> BrowserTypeName(profile) == Ok(Chromium)
    ensures var r := BrowserTypeName([("browserName", Str(s))] + rest);
            r == BrowserTypeName([("browserName", Str(Upper(s)))] + rest) &&
            (Lower(s) in {"chromium", "chrome", "msedge", "edge"} ==> r == Ok(Chromium)) &&
            (Lower(s) == "firefox" ==> r == Ok(Firefox)) &&
            (Lower(s) in {"webkit", "safari"} ==> r == Ok(WebKit)) &&
            (Lower(s) !in {"chromium", "chrome", "msedge", "edge", "firefox", "webkit", "safari"} ==> r == Ok(Chromium))
    ensures !v.Str? ==> BrowserTypeName([("browserName", v)] + rest).Err?
  {
    LowerIgnoresCase(s);
  }

  /** `slow_mo > 0` on a configuration value: numbers compare, anything else raises TypeError. */
  function IsPositive(v: Value): Result<bool, Exception> {
    match v
    case Int(i) => Ok(i > 0)
    case Bool(b) => Ok(b)
    case _ => Err(NotComparable(v))
  }

  /** The TypeError of `v > 0` on a value that is not a number. */
  function NotComparable(v: Value): Exception {
    TypeError("'>' not supported between instances of '" + TypeName(v) + "' and 'int'")
  }

  function PutIf(d: Entries, cond: bool, k: string, v: Value): Entries {
    if cond then Put(d, k, v) else d
  }

  lemma GetPutIf(d: Entries, cond: bool, k: string, v: Value, j: string)
    ensures Get(PutIf(d, cond, k, v), j) == if cond && j == k then Some(v) else Get(d, j)
  {
    if cond { GetPut(d, k, v, j); }
  }

  /** The launch channel for a chromium-family name: "edge" is spelled "msedge". */
  function Channel(engine: Engine, profile: Entries): Result<Option<string>, Exception> {
    if engine != Chromium then Ok(None)
    else
      match GetOr(profile, "browserName", Str(""))
      case Str(s) =>
        var name := Lower(s);
        if name == "chrome" || name == "msedge" || name == "edge" then
          Ok(Some(if name == "edge" then "msedge" else name))
        else Ok(None)
      case v => Err(NoAttribute(v, "lower"))
  }

  /** `_get_launch_options` */
  function LaunchOptions(profile: Entries, framework: Entries): Result<Entries, Exception> {
    var headless := GetOr(profile, "headless", GetOr(framework, "headless", Bool(false)));
    var args := GetOr(profile, "args", List([]));
    var slowMo := GetOr(framework, "slow_motion", Int(0));
    match IsPositive(slowMo)
    case Err(e) => Err(e)
    case Ok(slow) =>
      match BrowserTypeName(profile)
      case Err(e) => Err(e)
      case Ok(engine) =>
        match Channel(engine, profile)
        case Err(e) => Err(e)
        case Ok(channel) =>
          var o := [("headless", headless)];
          var o := PutIf(o, Truthy(args), "args", args);
          var o := PutIf(o, slow, "slow_mo", slowMo);
          Ok(PutIf(o, channel.Some?, "channel", Str(channel.GetOr(""))))
  }

  /** The value each key of the launch options holds, None for a key that is absent. */
  lemma LaunchOptionsGet(profile: Entries, framework: Entries, j: string)
    requires LaunchOptions(profile, framework).Ok?
    ensures Get(LaunchOptions(profile, framework).value, j) ==
            var args := GetOr(profile, "args", List([]));
            var slowMo := GetOr(framework, "slow_motion", Int(0));
            var channel := Channel(BrowserTypeName(profile).value, profile).value;
            if j == "channel" && channel.Some? then Some(Str(channel.value))
            else if j == "slow_mo" && IsPositive(slowMo) == Ok(true) then Some(slowMo)
            else if j == "args" && Truthy(args) then Some(args)
            else if j == "headless" then Some(GetOr(profile, "headless", GetOr(framework, "headless", Bool(false))))
            else None
  {
    var headless := GetOr(profile, "headless", GetOr(framework, "headless", Bool(false)));
    var args := GetOr(profile, "args", List([]));
    var slowMo := GetOr(framework, "slow_motion", Int(0));
    var slow := IsPositive(slowMo).value;
    var engine := BrowserTypeName(profile).value;
    var channel := Channel(engine, profile).value;
    var o0 := [("headless", headless)];
    var o1 := PutIf(o0, Truthy(args), "args", args);
    var o2 := PutIf(o1, slow, "slow_mo", slowMo);
    var o3 := PutIf(o2, channel.Some?, "channel", Str(channel.GetOr("")));
    assert LaunchOptions(profile, framework).value == o3;
    assert o0[1..] == [];
    GetPutIf(o2, channel.Some?, "channel", Str(channel.GetOr("")), j);
    GetPutIf(o1, slow, "slow_mo", slowMo, j);
    GetPutIf(o0, Truthy(args), "args", args, j);
  }

  /** What the launch options hold: `headless` from the profile, else the framework, else False;
      `args` only when non-empty; `slow_mo` only when positive; `channel` only for chrome, msedge
      and edge on the chromium engine, with edge launched as msedge; and no other key. */
  lemma LaunchOptionsKeys(profile: Entries, framework: Entries)
    requires LaunchOptions(profile, framework).Ok?
    ensures var o := LaunchOptions(profile, framework).value;
            var args := GetOr(profile, "args", List([]));
            var slowMo := GetOr(framework, "slow_motion", Int(0));
            var name := Lower(GetOr(profile, "browserName", Str("")).s);
            Get(o, "headless") == Some(GetOr(profile, "headless", GetOr(framework, "headless", Bool(false)))) &&
            (HasKey(o, "args") <==> Truthy(args)) && (HasKey(o, "args") ==> Get(o, "args") == Some(args)) &&
            (HasKey(o, "slow_mo") <==> IsPositive(slowMo) == Ok(true)) &&
            (HasKey(o, "slow_mo") ==> Get(o, "slow_mo") == Some(slowMo)) &&
            (forall k :: HasKey(o, k) ==> k in ["headless", "args", "slow_mo", "channel"]) &&
            (HasKey(o, "channel") <==>
               BrowserTypeName(profile) == Ok(Chromium) && (name == "chrome" || name == "msedge" || name == "edge")) &&
            (HasKey(o, "channel") ==> Get(o, "channel") == Some(Str(if name == "edge" then "msedge" else name)))
  {
    forall k ensures Get(LaunchOptions(profile, framework).value, k) != None ==>
                     k in ["headless", "args", "slow_mo", "channel"] {
      LaunchOptionsGet(profile, framework, k);
    }
    LaunchOptionsGet(profile, framework, "headless");
    LaunchOptionsGet(profile, framework, "args");
    LaunchOptionsGet(profile, framework, "slow_mo");
    LaunchOptionsGet(profile, framework, "channel");
  }

  /** `_get_context_options` */
  function ContextOptions(profile: Entries, framework: Entries): Result<Entries, Exception> {
    var viewport := GetOr(profile, "viewport", Null);
    var size :=
      if Truthy(viewport) then
        match viewport
        case Dict(v) => Ok(Dict([("width", GetOr(v, "width", Int(1920))), ("height", GetOr(v, "height", Int(1080)))]))
        case _ => Err(NoAttribute(viewport, "get"))
      else
        Ok(Dict([("width", GetOr(framework, "browser_width", Int(1920))),
                 ("height", GetOr(framework, "browser_height", Int(1080)))]));
    match size
    case Err(e) => Err(e)
    case Ok(vp) =>
      var userAgent := GetOr(framework, "user_agent", Null);
      var timezone := GetOr(framework, "timezone", Null);
      var permissions := GetOr(framework, "permissions", List([]));
      var o := [("viewport", vp)];
      var o := PutIf(o, Truthy(userAgent), "user_agent", userAgent);
      var o := Put(o, "locale", GetOr(framework, "locale", Str("en-US")));
      var o := PutIf(o, Truthy(timezone), "timezone_id", timezone);
      var o := Put(o, "accept_downloads", Bool(true));
      Ok(PutIf(o, Truthy(permissions), "permissions", permissions))
  }

  /** The viewport `_get_context_options` sets. */
  function ContextViewport(profile: Entries, framework: Entries): Value {
    var viewport := GetOr(profile, "viewport", Null);
    if Truthy(viewport) && viewport.Dict? then
      Dict([("width", GetOr(viewport.entries, "width", Int(1920))), ("height", GetOr(viewport.entries, "height", Int(1080)))])
    else
      Dict([("width", GetOr(framework, "browser_width", Int(1920))), ("height", GetOr(framework, "browser_height", Int(1080)))])
  }

  /** The value each key of the context options holds, None for a key that is absent. */
  lemma ContextOptionsGet(profile: Entries, framework: Entries, j: string)
    requires ContextOptions(profile, framework).Ok?
    ensures Get(ContextOptions(profile, framework).value, j) ==
            var userAgent := GetOr(framework, "user_agent", Null);
            var timezone := GetOr(framework, "timezone", Null);
            var permissions := GetOr(framework, "permissions", List([]));
            if j == "permissions" then (if Truthy(permissions) then Some(permissions) else None)
            else if j == "accept_downloads" then Some(Bool(true))
            else if j == "timezone_id" then (if Truthy(timezone) then Some(timezone) else None)
            else if j == "locale" then Some(GetOr(framework, "locale", Str("en-US")))
            else if j == "user_agent" then (if Truthy(userAgent) then Some(userAgent) else None)
            else if j == "viewport" then Some(ContextViewport(profile, framework))
            else None
  {
    var vp := ContextViewport(profile, framework);
    var userAgent := GetOr(framework, "user_agent", Null);
    var timezone := GetOr(framework, "timezone", Null);
    var permissions := GetOr(framework, "permissions", List([]));
    var locale := GetOr(framework, "locale", Str("en-US"));
    var o0 := [("viewport", vp)];
    var o1 := PutIf(o0, Truthy(userAgent), "user_agent", userAgent);
    var o2 := Put(o1, "locale", locale);
    var o3 := PutIf(o2, Truthy(timezone), "timezone_id", timezone);
    var o4 := Put(o3, "accept_downloads", Bool(true));
    var o5 := PutIf(o4, Truthy(permissions), "permissions", permissions);
    assert ContextOptions(profile, framework).value == o5;
    assert o0[1..] == [];
    GetPutIf(o4, Truthy(permissions), "permissions", permissions, j);
    GetPut(o3, "accept_downloads", Bool(true), j);
    GetPutIf(o2, Truthy(timezone), "timezone_id", timezone, j);
    GetPut(o1, "locale", locale, j);
    GetPutIf(o0, Truthy(userAgent), "user_agent", userAgent, j);
  }

  /** What the context options hold: the viewport from the profile with per-field defaults
      1920x1080, else from the framework with the same defaults; `locale` defaulting to "en-US";
      `accept_downloads` always True; `user_agent`, `timezone_id` and `permissions` only when set,
      each with the framework's value; and no other key. */
  lemma ContextOptionsKeys(profile: Entries, framework: Entries)
    requires ContextOptions(profile, framework).Ok?
    ensures var o := ContextOptions(profile, framework).value;
            var viewport := GetOr(profile, "viewport", Null);
            (Get(o, "viewport") == Some(
               if Truthy(viewport) then
                 Dict([("width", GetOr(viewport.entries, "width", Int(1920))),
                       ("height", GetOr(viewport.entries, "height", Int(1080)))])
               else
                 Dict([("width", GetOr(framework, "browser_width", Int(1920))),
                       ("height", GetOr(framework, "browser_height", Int(1080)))]))) &&
            Get(o, "locale") == Some(GetOr(framework, "locale", Str("en-US"))) &&
            Get(o, "accept_downloads") == Some(Bool(true)) &&
            (HasKey(o, "user_agent") <==> Truthy(GetOr(framework, "user_agent", Null))) &&
            (HasKey(o, "user_agent") ==> Get(o, "user_agent") == Some(GetOr(framework, "user_agent", Null))) &&
            (HasKey(o, "timezone_id") <==> Truthy(GetOr(framework, "timezone", Null))) &&
            (HasKey(o, "timezone_id") ==> Get(o, "timezone_id") == Some(GetOr(framework, "timezone", Null))) &&
            (HasKey(o, "permissions") <==> Truthy(GetOr(framework, "permissions", List([])))) &&
            (HasKey(o, "permissions") ==> Get(o, "permissions") == Some(GetOr(framework, "permissions", List([])))) &&
            (forall k :: HasKey(o, k) ==>
               k in ["viewport", "user_agent", "locale", "timezone_id", "accept_downloads", "permissions"])
  {
    var o := ContextOptions(profile, framework).value;
    var viewport := GetOr(profile, "viewport", Null);
    assert Truthy(viewport) ==> viewport.Dict?;
    forall k ensures Get(o, k) != None ==>
                     k in ["viewport", "user_agent", "locale", "timezone_id", "accept_downloads", "permissions"] {
      ContextOptionsGet(profile, framework, k);
    }
    ContextOptionsGet(profile, framework, "viewport");
    ContextOptionsGet(profile, framework, "locale");
    ContextOptionsGet(profile, framework, "accept_downloads");
    ContextOptionsGet(profile, framework, "user_agent");
    ContextOptionsGet(profile, framework, "timezone_id");
    ContextOptionsGet(profile, framework, "permissions");
  }

  /** `seconds * 1000` for the values Playwright accepts; None where the product or the setter raises. */
  function Millis(v: Value): Option<int> {
    match v
    case Int(i) => Some(i * 1000)
    case Bool(b) => Some(if b then 1000 else 0)
    case _ => None
  }

  /** The setter calls `_apply_timeouts` makes; the first failure ends the `try` block. */
  function TimeoutCalls(framework: Entries, hasPage: bool): seq<TimeoutCall> {
    if !hasPage then []
    else
      match Millis(GetOr(framework, "default_timeout", Int(10)))
      case None => []
      case Some(d) =>
        [SetDefaultTimeout(d)] +
        match Millis(GetOr(framework, "page_load_timeout", Int(30)))
        case None => []
        case Some(n) => [SetDefaultNavigationTimeout(n)]
  }

  /** Timeouts are seconds times 1000, 10 s and 30 s by default; without a page nothing is set. */
  lemma TimeoutDefaults(framework: Entries, d: int, n: int)
    ensures TimeoutCalls(framework, false) == []
    ensures !HasKey(framework, "default_timeout") && !HasKey(framework, "page_load_timeout") ==>
              TimeoutCalls(framework, true) == [SetDefaultTimeout(10000), SetDefaultNavigationTimeout(30000)]
    ensures Get(framework, "default_timeout") == Some(Int(d)) && Get(framework, "page_load_timeout") == Some(Int(n)) ==>
              TimeoutCalls(framework, true) == [SetDefaultTimeout(d * 1000), SetDefaultNavigationTimeout(n * 1000)]
  {
  }

  /** `_cleanup`: close the page, context and browser and stop Playwright, forgetting each handle once
      it is closed. A close that raises ends the `try` block and leaves that handle and the
      later ones as they were. */
  function CleanedUp(h: Handles, closes: Handle -> bool): Handles {
    if h.page.Some? && !closes(h.page.value) then h
    else
      var h := h.(page := None);
      if h.context.Some? && !closes(h.context.value) then h
      else
        var h := h.(context := None);
        if h.browser.Some? && !closes(h.browser.value) then h
        else
          var h := h.(browser := None);
          if h.playwright.Some? && !closes(h.playwright.value) then h
          else h.(playwright := None)
  }

  /** Cleanup only ever forgets handles; when every close succeeds all four are None; and running it
      twice leaves what running it once left. */
  lemma CleanupProperties(h: Handles, closes: Handle -> bool)
    ensures var c := CleanedUp(h, closes);
            (c.page == None || c.page == h.page) && (c.context == None || c.context == h.context) &&
            (c.browser == None || c.browser == h.browser) && (c.playwright == None || c.playwright == h.playwright)
    ensures (forall x :: closes(x)) ==> CleanedUp(h, closes) == NoHandles
    ensures CleanedUp(CleanedUp(h, closes), closes) == CleanedUp(h, closes)
  {
  }

  /** What `_get_browser_type`, `_get_launch_options` and `_get_context_options` yield for a
      profile; they read only the configuration, so every attempt sees the same values. */
  datatype Settings = Settings(engine: Result<Engine, Exception>, launch: Result<Entries, Exception>,
                               context: Result<Entries, Exception>)

  function SettingsOf(profile: Entries, framework: Entries): Settings {
    Settings(BrowserTypeName(profile), LaunchOptions(profile, framework), ContextOptions(profile, framework))
  }

  /** The steps of `_create_local_driver` before its own cleanup: what it returns or raises, and the
      handles it has obtained by then (the others None). */
  function LocalAttempt(k: nat, env: (nat, Step) -> Result<Handle, string>, settings: Settings):
    (Result<Handle, Exception>, Handles)
  {
    match env(k, StartPlaywright)
    case Err(m) => (Err(Foreign(m)), NoHandles)
    case Ok(pw) =>
      var h1 := NoHandles.(playwright := Some(pw));
      match settings.engine
      case Err(e) => (Err(e), h1)
      case Ok(engine) =>
        match settings.launch
        case Err(e) => (Err(e), h1)
        case Ok(launch) =>
          match env(k, LaunchBrowser(engine, launch))
          case Err(m) => (Err(Foreign(m)), h1)
          case Ok(b) =>
            var h2 := h1.(browser := Some(b));
            match settings.context
            case Err(e) => (Err(e), h2)
            case Ok(options) =>
              match env(k, NewContext(options))
              case Err(m) => (Err(Foreign(m)), h2)
              case Ok(c) =>
                var h3 := h2.(context := Some(c));
                match env(k, NewPage)
                case Err(m) => (Err(Foreign(m)), h3)
                case Ok(p) => (Ok(p), h3.(page := Some(p)))
  }

  /** The handles after an attempt that started from `h` and obtained `got`: each handle obtained
      replaces the stored one, the others stay as they were. */
  function Overlay(h: Handles, got: Handles): Handles {
    Handles(if got.playwright.Some? then got.playwright else h.playwright,
            if got.browser.Some? then got.browser else h.browser,
            if got.context.Some? then got.context else h.context,
            if got.page.Some? then got.page else h.page)
  }

  /** The handles are obtained in order (Playwright, browser, context, page), each only after the
      previous one; a successful attempt obtains all four, its page being the result, so what
      earlier attempts left no longer shows. */
  lemma AttemptObtainsInOrder(k: nat, env: (nat, Step) -> Result<Handle, string>, settings: Settings, h: Handles)
    ensures var (r, got) := LocalAttempt(k, env, settings);
            (got.browser.Some? ==> got.playwright.Some?) && (got.context.Some? ==> got.browser.Some?) &&
            (got.page.Some? <==> r.Ok?) && (got.page.Some? ==> got.context.Some? && got.page == Some(r.value))
    ensures LocalAttempt(k, env, settings).0.Ok? ==>
              Overlay(h, LocalAttempt(k, env, settings).1) == LocalAttempt(k, env, settings).1
  {
  }

  /** The TypeError `time.sleep` raises for a value that is not a number. */
  function NotAnInteger(v: Value): Exception {
    TypeError("'" + TypeName(v) + "' object cannot be interpreted as an integer")
  }

  /** `time.sleep(seconds)` on a configuration value: None when it returns, else what it raises. */
  function SleepError(seconds: Value): Option<Exception> {
    match seconds
    case Int(i) => if i < 0 then Some(ValueError("sleep length must be non-negative")) else None
    case Bool(_) => None
    case v => Some(NotAnInteger(v))
  }

  /** The log of pass `k` of the retry loop: a sleep unless it is the first pass, then the attempt
      unless that sleep raised. */
  function PassLog(k: nat, delay: Value): seq<Event> {
    (if k > 0 then [Slept(delay)] else []) + (if k == 0 || SleepError(delay).None? then [Attempted(k)] else [])
  }

  /** The log of `n` passes of the retry loop. */
  function RetryLog(n: nat, delay: Value): seq<Event> {
    if n == 0 then [] else RetryLog(n - 1, delay) + PassLog(n - 1, delay)
  }

  /** The log `log0` extended by `n` passes, pass by pass. */
  function LogAfter(log0: seq<Event>, n: nat, delay: Value): seq<Event> {
    if n == 0 then log0 else LogAfter(log0, n - 1, delay) + PassLog(n - 1, delay)
  }

  /** Extending a log pass by pass appends the log of those passes. */
  lemma {:induction false} LogAfterAppends(log0: seq<Event>, n: nat, delay: Value)
    ensures LogAfter(log0, n, delay) == log0 + RetryLog(n, delay)
  {
    if n > 0 {
      LogAfterAppends(log0, n - 1, delay);
    }
  }

  /** With a delay `time.sleep` accepts, `n` passes log `n` attempts in order with exactly `n - 1`
      sleeps, each directly before a retry. With a delay it refuses, only the first attempt is made
      and every later pass logs just its sleep. */
  lemma {:induction false} RetryLogShape(n: nat, delay: Value)
    requires n > 0
    ensures |RetryLog(n, delay)| >= n && RetryLog(n, delay)[0] == Attempted(0)
    ensures SleepError(delay).None? ==>
              |RetryLog(n, delay)| == 2 * n - 1 &&
              (forall j :: 0 <= j < n ==> RetryLog(n, delay)[2 * j] == Attempted(j)) &&
              (forall j :: 0 < j < n ==> RetryLog(n, delay)[2 * j - 1] == Slept(delay))
    ensures SleepError(delay).Some? ==>
              |RetryLog(n, delay)| == n && forall j :: 0 < j < n ==> RetryLog(n, delay)[j] == Slept(delay)
  {
    if n > 1 {
      RetryLogShape(n - 1, delay);
      var prev := RetryLog(n - 1, delay);
      if SleepError(delay).None? {
        assert RetryLog(n, delay) == prev + [Slept(delay), Attempted(n - 1)];
        forall j | 0 <= j < n ensures RetryLog(n, delay)[2 * j] == Attempted(j) {
          if j < n - 1 { assert RetryLog(n, delay)[2 * j] == prev[2 * j]; }
        }
        forall j | 0 < j < n ensures RetryLog(n, delay)[2 * j - 1] == Slept(delay) {
          if j < n - 1 { assert RetryLog(n, delay)[2 * j - 1] == prev[2 * j - 1]; }
        }
      } else {
        assert RetryLog(n, delay) == prev + [Slept(delay)];
        forall j | 0 < j < n ensures RetryLog(n, delay)[j] == Slept(delay) {
          if j < n - 1 { assert RetryLog(n, delay)[j] == prev[j]; }
        }
      }
    }
  }

  /** The retry count `get_driver` uses: the argument, else `retries` from the configuration (default 2). */
  function RetryCount(maxRetries: Option<int>, framework: Entries): Result<int, Exception> {
    match maxRetries
    case Some(n) => Ok(n)
    case None =>
      match GetOr(framework, "retries", Int(2))
      case Int(n) => Ok(n)
      case Bool(b) => Ok(if b then 1 else 0)
      case v => Err(AddIntError(v))
  }

  /** The TypeError of `v + 1` on a value that is neither a number nor a boolean. */
  function AddIntError(v: Value): Exception {
    match v
    case Str(_) => TypeError("can only concatenate str (not \"int\") to str")
    case List(_) => TypeError("can only concatenate list (not \"int\") to list")
    case _ => TypeError("unsupported operand type(s) for +: '" + TypeName(v) + "' and 'int'")
  }

  class DriverFactory {
    const profile: Entries
    const framework: Entries
    const remote: bool
    /** The browser type and options read from `profile` and `framework`. */
    const settings: Settings
    var playwright: Option<Handle>
    var browser: Option<Handle>
    var context: Option<Handle>
    var page: Option<Handle>
    /** The timeouts set on the current page. */
    var timeouts: seq<TimeoutCall>
    /** Sleeps and attempt starts of `get_driver`, in order. */
    var log: seq<Event>

    function State(): Handles
      reads this
    {
      Handles(playwright, browser, context, page)
    }

    /** What `_create_remote_driver` or `_create_local_driver` yields on attempt `k`. */
    function AttemptOutcome(k: nat, env: (nat, Step) -> Result<Handle, string>): Result<Handle, Exception> {
      if remote then Err(NotImplementedError(RemoteNotImplemented))
      else LocalAttempt(k, env, settings).0
    }

    /** The outcome of pass `k` of the retry loop: a retry whose sleep raises fails with that error
        before any driver is created. */
    function RetryOutcome(k: nat, env: (nat, Step) -> Result<Handle, string>, delay: Value): Result<Handle, Exception> {
      if k > 0 && SleepError(delay).Some? then Err(SleepError(delay).value) else AttemptOutcome(k, env)
    }

    /** The handles pass `k` leaves, before `get_driver`'s own cleanup, when it starts from `h`. */
    function AttemptHandles(k: nat, env: (nat, Step) -> Result<Handle, string>, delay: Value, h: Handles): Handles {
      if remote || (k > 0 && SleepError(delay).Some?) then h else Overlay(h, LocalAttempt(k, env, settings).1)
    }

    /** The handles left after `n` failed passes, each followed by a cleanup, starting from `h`. */
    function HandlesAfter(n: nat, env: (nat, Step) -> Result<Handle, string>, delay: Value, closes: Handle -> bool,
                          h: Handles): Handles
    {
      if n == 0 then h else CleanedUp(AttemptHandles(n - 1, env, delay, HandlesAfter(n - 1, env, delay, closes, h)), closes)
    }

    /** The first pass, below `n`, that yields a page. */
    function FirstSuccess(n: nat, env: (nat, Step) -> Result<Handle, string>, delay: Value): Option<nat> {
      if n == 0 then None
      else
        match FirstSuccess(n - 1, env, delay)
        case Some(k) => Some(k)
        case None => if RetryOutcome(n - 1, env, delay).Ok? then Some(n - 1) else None
    }

    /** When no pass below the bound yields a page, every pass below it fails. */
    lemma {:induction false} FirstSuccessNone(n: nat, env: (nat, Step) -> Result<Handle, string>, delay: Value)
      ensures FirstSuccess(n, env, delay).None? ==> forall j :: 0 <= j < n ==> RetryOutcome(j, env, delay).Err?
    {
      if n > 0 {
        FirstSuccessNone(n - 1, env, delay);
      }
    }

    /** The pass found is below the bound and yields a page, and every earlier pass fails. */
    lemma {:induction false} FirstSuccessIsFirst(n: nat, env: (nat, Step) -> Result<Handle, string>, delay: Value)
      ensures var r := FirstSuccess(n, env, delay);
              r.Some? ==> r.value < n && RetryOutcome(r.value, env, delay).Ok? &&
                          forall j :: 0 <= j < r.value ==> RetryOutcome(j, env, delay).Err?
    {
      if n > 0 {
        if FirstSuccess(n - 1, env, delay).Some? {
          FirstSuccessIsFirst(n - 1, env, delay);
        } else {
          FirstSuccessNone(n - 1, env, delay);
        }
      }
    }

    /** Once a pass has succeeded, allowing more passes changes nothing. */
    lemma {:induction false} FirstSuccessStable(n: nat, m: nat, env: (nat, Step) -> Result<Handle, string>, delay: Value)
      requires m <= n && FirstSuccess(m, env, delay).Some?
      ensures FirstSuccess(n, env, delay) == FirstSuccess(m, env, delay)
      decreases n - m
    {
      if m < n {
        FirstSuccessStable(n - 1, m, env, delay);
      }
    }

    /** A loop that stops at pass `last` of `n`, after its first success or at the last pass with no
        success at all, stops at the first pass that succeeds. */
    lemma StopsAtFirstSuccess(n: nat, last: nat, succeeded: bool, env: (nat, Step) -> Result<Handle, string>,
                              delay: Value)
      requires last < n
      requires succeeded ==> FirstSuccess(last + 1, env, delay) == Some(last)
      requires !succeeded ==> last == n - 1 && FirstSuccess(last + 1, env, delay).None?
      ensures succeeded <==> FirstSuccess(n, env, delay).Some?
      ensures succeeded ==> FirstSuccess(n, env, delay) == Some(last)
    {
      if succeeded {
        FirstSuccessStable(n, last + 1, env, delay);
      }
    }

    constructor (profile: Entries, framework: Entries, remote: bool)
      ensures this.profile == profile && this.framework == framework && this.remote == remote
      ensures settings == SettingsOf(profile, framework)
      ensures State() == NoHandles && timeouts == [] && log == []
    {
      this.profile := profile;
      this.framework := framework;
      this.remote := remote;
      this.settings := SettingsOf(profile, framework);
      playwright, browser, context, page := None, None, None, None;
      timeouts := [];
      log := [];
    }

    /** `_cleanup` */
    method Cleanup(closes: Handle -> bool)
      modifies this
      ensures State() == CleanedUp(old(State()), closes)
      ensures timeouts == old(timeouts) && log == old(log)
    {
      if page.Some? {
        if !closes(page.value) { return; }
        page := None;
      }
      if context.Some? {
        if !closes(context.value) { return; }
        context := None;
      }
      if browser.Some? {
        if !closes(browser.value) { return; }
        browser := None;
      }
      if playwright.Some? {
        if !closes(playwright.value) { return; }
        playwright := None;
      }
    }

    /** `quit_driver`: the same cleanup, with logging around it. */
    method QuitDriver(closes: Handle -> bool)
      modifies this
      ensures State() == CleanedUp(old(State()), closes)
      ensures timeouts == old(timeouts) && log == old(log)
    {
      Cleanup(closes);
    }

    /** `_apply_timeouts` */
    method ApplyTimeouts() returns (calls: seq<TimeoutCall>)
      ensures calls == TimeoutCalls(framework, page.Some?)
    {
      calls := [];
      if page.None? {
        return;
      }
      var d := Millis(GetOr(framework, "default_timeout", Int(10)));
      if d.None? {
        return;
      }
      calls := calls + [SetDefaultTimeout(d.value)];
      var n := Millis(GetOr(framework, "page_load_timeout", Int(30)));
      if n.None? {
        return;
      }
      calls := calls + [SetDefaultNavigationTimeout(n.value)];
    }

    /** `_create_local_driver`: each step stores its handle; a failure cleans up and re-raises. */
    method CreateLocalDriver(k: nat, env: (nat, Step) -> Result<Handle, string>, closes: Handle -> bool)
      returns (r: Result<Handle, Exception>)
      modifies this
      ensures r == LocalAttempt(k, env, settings).0
      ensures r.Ok? ==> State() == Overlay(old(State()), LocalAttempt(k, env, settings).1) && page == Some(r.value)
      ensures r.Ok? ==> timeouts == TimeoutCalls(framework, true)
      ensures r.Err? ==> State() == CleanedUp(Overlay(old(State()), LocalAttempt(k, env, settings).1), closes)
      ensures r.Err? ==> timeouts == old(timeouts)
      ensures log == old(log)
    {
      var started := env(k, StartPlaywright);
      if started.Err? {
        r := Err(Foreign(started.error));
        Cleanup(closes);
        return;
      }
      playwright := Some(started.value);
      var engine := settings.engine;
      if engine.Err? {
        r := Err(engine.error);
        Cleanup(closes);
        return;
      }
      var launch := settings.launch;
      if launch.Err? {
        r := Err(launch.error);
        Cleanup(closes);
        return;
      }
      var launched := env(k, LaunchBrowser(engine.value, launch.value));
      if launched.Err? {
        r := Err(Foreign(launched.error));
        Cleanup(closes);
        return;
      }
      browser := Some(launched.value);
      var options := settings.context;
      if options.Err? {
        r := Err(options.error);
        Cleanup(closes);
        return;
      }
      var created := env(k, NewContext(options.value));
      if created.Err? {
        r := Err(Foreign(created.error));
        Cleanup(closes);
        return;
      }
      context := Some(created.value);
      var made := env(k, NewPage);
      if made.Err? {
        r := Err(Foreign(made.error));
        Cleanup(closes);
        return;
      }
      page := Some(made.value);
      timeouts := ApplyTimeouts();
      r := Ok(made.value);
    }

    /** `time.sleep(retry_delay)`, logged; it raises for a delay it refuses. */
    method Sleep(seconds: Value) returns (e: Option<Exception>)
      modifies this
      ensures e == SleepError(seconds)
      ensures log == old(log) + [Slept(seconds)]
      ensures State() == old(State()) && timeouts == old(timeouts)
    {
      log := log + [Slept(seconds)];
      e := SleepError(seconds);
    }

    /** Pass `k` of the retry loop of `get_driver`, after `k` failed passes that started from the log
        `log0` and the handles `state0`: the `try` block (the sleep before a retry, then the attempt)
        and, when it raises, the cleanup of the `except` block. */
    method Pass(k: nat, delay: Value, env: (nat, Step) -> Result<Handle, string>, closes: Handle -> bool,
                ghost log0: seq<Event>, ghost state0: Handles)
      returns (r: Result<Handle, Exception>)
      requires FirstSuccess(k, env, delay).None?
      requires log == LogAfter(log0, k, delay) && State() == HandlesAfter(k, env, delay, closes, state0)
      modifies this
      ensures r == RetryOutcome(k, env, delay)
      ensures log == LogAfter(log0, k + 1, delay)
      ensures r.Ok? ==> FirstSuccess(k + 1, env, delay) == Some(k) &&
                        State() == AttemptHandles(k, env, delay, HandlesAfter(k, env, delay, closes, state0)) &&
                        page == Some(r.value) && timeouts == TimeoutCalls(framework, true)
      ensures r.Err? ==> FirstSuccess(k + 1, env, delay).None? &&
                         State() == HandlesAfter(k + 1, env, delay, closes, state0) && timeouts == old(timeouts)
    {
      ghost var before := State();
      var failed: Option<Exception> := None;
      if k > 0 {
        failed := Sleep(delay);
      }
      if failed.Some? {
        r := Err(failed.value);
      } else {
        log := log + [Attempted(k)];
        r := TryAttempt(k, env, closes);
      }
      if r.Err? {
        Cleanup(closes);
        CleanupProperties(AttemptHandles(k, env, delay, before), closes);
      }
    }

    /** The execution-mode dispatch inside the `try` block of `get_driver`. */
    method TryAttempt(k: nat, env: (nat, Step) -> Result<Handle, string>, closes: Handle -> bool)
      returns (r: Result<Handle, Exception>)
      modifies this
      ensures r == AttemptOutcome(k, env)
      ensures !remote && r.Ok? ==>
                State() == Overlay(old(State()), LocalAttempt(k, env, settings).1) && page == Some(r.value) &&
                timeouts == TimeoutCalls(framework, true)
      ensures !remote && r.Err? ==>
                State() == CleanedUp(Overlay(old(State()), LocalAttempt(k, env, settings).1), closes) &&
                timeouts == old(timeouts)
      ensures remote ==> State() == old(State()) && timeouts == old(timeouts)
      ensures log == old(log)
    {
      if remote {
        r := Err(NotImplementedError(RemoteNotImplemented));
      } else {
        r := CreateLocalDriver(k, env, closes);
      }
    }

    /** `get_driver`: at most `retries + 1` passes, sleeping before each retry; the first page is
        returned; every failure is cleaned up; the last pass's error is re-raised. */
    method GetDriver(maxRetries: Option<int>, env: (nat, Step) -> Result<Handle, string>, closes: Handle -> bool)
      returns (r: Result<Handle, Exception>)
      modifies this
      ensures RetryCount(maxRetries, framework).Err? ==>
                r == Err(RetryCount(maxRetries, framework).error) && log == old(log) && State() == old(State()) &&
                timeouts == old(timeouts)
      ensures RetryCount(maxRetries, framework).Ok? && RetryCount(maxRetries, framework).value < 0 ==>
                r == Err(Error("Driver creation failed")) && log == old(log) && State() == old(State()) &&
                timeouts == old(timeouts)
      ensures RetryCount(maxRetries, framework).Ok? && RetryCount(maxRetries, framework).value >= 0 ==>
                var n := RetryCount(maxRetries, framework).value + 1;
                var delay := GetOr(framework, "retry_delay", Int(1));
                var first := FirstSuccess(n, env, delay);
                var k := if first.Some? then first.value else n - 1;
                r == RetryOutcome(k, env, delay) && log == old(log) + RetryLog(k + 1, delay) &&
                (first.Some? ==>
                   r.Ok? && page == Some(r.value) && timeouts == TimeoutCalls(framework, true) &&
                   State() == AttemptHandles(k, env, delay, HandlesAfter(k, env, delay, closes, old(State())))) &&
                (first.None? ==> State() == HandlesAfter(n, env, delay, closes, old(State())) && timeouts == old(timeouts))
    {
      var count := RetryCount(maxRetries, framework);
      if count.Err? {
        return Err(count.error);
      }
      ghost var log0 := log;
      var delay := GetOr(framework, "retry_delay", Int(1));
      ghost var last;
      r, last := RetryLoop(count.value, delay, env, closes);
      if count.value >= 0 {
        LogAfterAppends(log0, last + 1, delay);
        StopsAtFirstSuccess(count.value + 1, last, r.Ok?, env, delay);
      }
    }

    /** The `for attempt in range(max_retries + 1)` loop of `get_driver`, with its fallback raise. */
    method RetryLoop(retries: int, delay: Value, env: (nat, Step) -> Result<Handle, string>, closes: Handle -> bool)
      returns (r: Result<Handle, Exception>, ghost last: nat)
      modifies this
      ensures retries < 0 ==>
                r == Err(Error("Driver creation failed")) && log == old(log) && State() == old(State()) &&
                timeouts == old(timeouts)
      ensures retries >= 0 ==>
                last <= retries && r == RetryOutcome(last, env, delay) && log == LogAfter(old(log), last + 1, delay)
      ensures retries >= 0 && r.Ok? ==>
                FirstSuccess(last + 1, env, delay) == Some(last) &&
                State() == AttemptHandles(last, env, delay, HandlesAfter(last, env, delay, closes, old(State()))) &&
                page == Some(r.value) && timeouts == TimeoutCalls(framework, true)
      ensures retries >= 0 && r.Err? ==>
                last == retries && FirstSuccess(last + 1, env, delay).None? &&
                State() == HandlesAfter(last + 1, env, delay, closes, old(State())) && timeouts == old(timeouts)
    {
      ghost var log0 := log;
      ghost var state0 := State();
      ghost var timeouts0 := timeouts;
      var attempt := 0;
      last := 0;
      while attempt < retries + 1
        invariant 0 <= attempt && (retries >= 0 ==> attempt <= retries) && (retries < 0 ==> attempt == 0)
        invariant FirstSuccess(attempt, env, delay).None?
        invariant log == LogAfter(log0, attempt, delay)
        invariant State() == HandlesAfter(attempt, env, delay, closes, state0)
        invariant timeouts == timeouts0
      {
        r := Pass(attempt, delay, env, closes, log0, state0);
        last := attempt;
        if r.Ok? {
          return;
        }
        if attempt == retries {
          return;
        }
        attempt := attempt + 1;
      }
      r := Err(Error("Driver creation failed"));
    }
  }

  /** Remote mode never yields a page: every attempt raises NotImplementedError, or the error of a
      refused sleep. */
  lemma RemoteAlwaysFails(f: DriverFactory, env: (nat, Step) -> Result<Handle, string>, delay: Value, n: nat)
    requires f.remote
    ensures f.FirstSuccess(n, env, delay).None?
    ensures forall k :: f.AttemptOutcome(k, env) == Err(NotImplementedError(RemoteNotImplemented))
    ensures forall k :: f.RetryOutcome(k, env, delay).Err?
  {
    f.FirstSuccessNone(n, env, delay);
  }

  /** When every close succeeds, nothing is left after one or more failed passes, and a page
      obtained later is backed by the handles of its own attempt alone. */
  lemma {:induction false} HandlesAfterAllClosed(f: DriverFactory, n: nat, env: (nat, Step) -> Result<Handle, string>,
                                                 delay: Value, closes: Handle -> bool, h: Handles)
    requires forall x :: closes(x)
    ensures n > 0 ==> f.HandlesAfter(n, env, delay, closes, h) == NoHandles
    ensures n > 0 && !f.remote && f.RetryOutcome(n, env, delay).Ok? ==>
              f.AttemptHandles(n, env, delay, f.HandlesAfter(n, env, delay, closes, h)) ==
              LocalAttempt(n, env, f.settings).1
  {
    if n > 0 {
      CleanupProperties(f.AttemptHandles(n - 1, env, delay, f.HandlesAfter(n - 1, env, delay, closes, h)), closes);
    }
  }
}
