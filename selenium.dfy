/** The Selenium page tool: check for the driver binary, open a headless browser session,
    load the page, read the body text, and always end the session. */
module Selenium {
  import opened Outcomes
  import Truncation

  const NotInstalled: string := "ChromeDriver is not installed or not in PATH. Please install it to use this tool."
  const ErrorPrefix: string := "Error fetching page with Selenium: "

  /** Seconds passed to the implicit wait. */
  const WaitSeconds: nat := 5

  /** A step taken against the environment, in the order `forward` takes them. */
  datatype Op = CheckDriver | CreateSession | LoadUrl(url: string) | ImplicitWait(seconds: nat) | FindBody | QuitSession

  /** How the environment answers: whether the driver binary is on the search path, and what
      each driver call does (succeeds, raises with a message, or yields the body text). */
  datatype Machine = Machine(
    installed: bool,
    launch: Result<()>,
    load: Result<()>,
    wait: Result<()>,
    body: Result<string>,
    quit: Result<()>)

  /** The driver as `forward` sees it: the environment it talks to, whether a browser session
      is open, how many sessions were created and ended, the last URL requested, and the log of
      every step taken. */
  class ChromeDriver {
    const machine: Machine
    var open: bool
    var sessions: nat
    var quits: nat
    var lastUrl: Option<string>
    var log: seq<Op>

    constructor (machine: Machine)
      ensures this.machine == machine
      ensures !open && sessions == 0 && quits == 0 && lastUrl == None && log == []
    {
      this.machine := machine;
      open, sessions, quits, lastUrl, log := false, 0, 0, None, [];
    }

    /** `shutil.which("chromedriver")`: is the binary on the search path. */
    method Which() returns (found: bool)
      modifies this
      ensures found == machine.installed
      ensures log == old(log) + [CheckDriver]
      ensures open == old(open) && sessions == old(sessions) && quits == old(quits) && lastUrl == old(lastUrl)
    {
      found := machine.installed;
      log := log + [CheckDriver];
    }

    /** `webdriver.Chrome(options=...)`: start a session, or raise. */
    method Launch() returns (s: Result<()>)
      requires !open
      modifies this
      ensures s == machine.launch
      ensures open == s.Ok? && sessions == old(sessions) + (if s.Ok? then 1 else 0)
      ensures log == old(log) + [CreateSession]
      ensures quits == old(quits) && lastUrl == old(lastUrl)
    {
      s := machine.launch;
      if s.Ok? {
        open, sessions := true, sessions + 1;
      }
      log := log + [CreateSession];
    }

    /** `driver.get(url)`: ask the session to load `url`, which may raise. */
    method Get(url: string) returns (s: Result<()>)
      requires open
      modifies this
      ensures s == machine.load
      ensures lastUrl == Some(url) && log == old(log) + [LoadUrl(url)]
      ensures open && sessions == old(sessions) && quits == old(quits)
    {
      s := machine.load;
      lastUrl := Some(url);
      log := log + [LoadUrl(url)];
    }

    /** `driver.implicitly_wait(seconds)`, which may raise. */
    method ImplicitlyWait(seconds: nat) returns (s: Result<()>)
      requires open
      modifies this
      ensures s == machine.wait
      ensures log == old(log) + [ImplicitWait(seconds)]
      ensures open && sessions == old(sessions) && quits == old(quits) && lastUrl == old(lastUrl)
    {
      s := machine.wait;
      log := log + [ImplicitWait(seconds)];
    }

    /** `driver.find_element("tag name", "body").text`, which may raise. */
    method FindBodyText() returns (text: Result<string>)
      requires open
      modifies this
      ensures text == machine.body
      ensures log == old(log) + [FindBody]
      ensures open && sessions == old(sessions) && quits == old(quits) && lastUrl == old(lastUrl)
    {
      text := machine.body;
      log := log + [FindBody];
    }

    /** `driver.quit()`: end the session. The session is over whatever the call reports. */
    method Quit() returns (s: Result<()>)
      requires open
      modifies this
      ensures s == machine.quit
      ensures !open && quits == old(quits) + 1
      ensures log == old(log) + [QuitSession]
      ensures sessions == old(sessions) && lastUrl == old(lastUrl)
    {
      s := machine.quit;
      open, quits := false, quits + 1;
      log := log + [QuitSession];
    }
  }

  /** What one `forward` call returns, with the steps it takes. */
  datatype Fetch = Fetch(text: string, log: seq<Op>)

  /** The position of each step in the fixed order of `forward`. */
  function Rank(op: Op): nat {
    match op
    case CheckDriver => 0
    case CreateSession => 1
    case LoadUrl(_) => 2
    case ImplicitWait(_) => 3
    case FindBody => 4
    case QuitSession => 5
  }

  /** The number of `op` steps in `log`. */
  function Count(log: seq<Op>, op: Op): nat {
    if log == [] then 0 else (if log[0] == op then 1 else 0) + Count(log[1..], op)
  }

  /** Counting distributes over concatenation. */
  lemma {:induction false} CountAppend(a: seq<Op>, b: seq<Op>, op: Op)
    ensures Count(a + b, op) == Count(a, op) + Count(b, op)
  {
    if a != [] {
      assert (a + b)[1..] == a[1..] + b;
      CountAppend(a[1..], b, op);
    } else {
      assert a + b == b;
    }
  }

  /** A log without `op` counts none of it. */
  lemma {:induction false} CountAbsent(log: seq<Op>, op: Op)
    requires op !in log
    ensures Count(log, op) == 0
  {
    if log != [] {
      assert log[0] != op;
      CountAbsent(log[1..], op);
    }
  }

  /** A session log, with no launch or quit among its inner steps, launches once and quits once. */
  lemma SessionLogCounts(steps: seq<Op>)
    requires CreateSession !in steps && QuitSession !in steps
    ensures Count([CheckDriver, CreateSession] + steps + [QuitSession], CreateSession) == 1
    ensures Count([CheckDriver, CreateSession] + steps + [QuitSession], QuitSession) == 1
  {
    var head := [CheckDriver, CreateSession];
    assert head[1..] == [CreateSession] && [CreateSession][1..] == [];
    assert [QuitSession][1..] == [];
    CountAbsent(steps, CreateSession);
    CountAbsent(steps, QuitSession);
    CountAppend(head + steps, [QuitSession], CreateSession);
    CountAppend(head + steps, [QuitSession], QuitSession);
    CountAppend(head, steps, CreateSession);
    CountAppend(head, steps, QuitSession);
  }

  /** A session is created exactly when the binary is present and the launch succeeds. */
  predicate Opens(m: Machine) {
    m.installed && m.launch.Ok?
  }

  /** The body of the inner `try`, run inside the session: the page text (truncated) or the
      error raised, with the steps taken. */
  function InSession(m: Machine, url: string): (Result<string>, seq<Op>) {
    match m.load
    case Err(e) => (Err(e), [LoadUrl(url)])
    case Ok(_) =>
      match m.wait
      case Err(e) => (Err(e), [LoadUrl(url), ImplicitWait(WaitSeconds)])
      case Ok(_) =>
        match m.body
        case Err(e) => (Err(e), [LoadUrl(url), ImplicitWait(WaitSeconds), FindBody])
        case Ok(t) => (Ok(Truncate(t)), [LoadUrl(url), ImplicitWait(WaitSeconds), FindBody])
  }

  /** The shared truncation rule applied to the body text. */
  function Truncate(t: string): string {
    Truncation.Truncate(t)
  }

  /** The messages of the driver calls that raise, in call order. */
  function Errors(m: Machine): seq<string> {
    (if m.launch.Err? then [m.launch.msg] else []) +
    (if m.load.Err? then [m.load.msg] else []) +
    (if m.wait.Err? then [m.wait.msg] else []) +
    (if m.body.Err? then [m.body.msg] else []) +
    (if m.quit.Err? then [m.quit.msg] else [])
  }

  /** `forward(url)`, as a value: the text returned and the steps taken. A `quit` that raises in
      the `finally` replaces whatever the inner block returned or raised. */
  function ForwardSpec(m: Machine, url: string): (r: Fetch)
    // the binary check comes first; without the binary no session is attempted
    ensures r.log != [] && r.log[0] == CheckDriver
    ensures !m.installed ==> r.text == NotInstalled && r.log == [CheckDriver]
  {
    if !m.installed then Fetch(NotInstalled, [CheckDriver])
    else
      match m.launch
      case Err(e) => Fetch(ErrorPrefix + e, [CheckDriver, CreateSession])
      case Ok(_) =>
        var (outcome, steps) := InSession(m, url);
        var log := [CheckDriver, CreateSession] + steps + [QuitSession];
        match m.quit
        case Err(e) => Fetch(ErrorPrefix + e, log)
        case Ok(_) =>
          match outcome
          case Ok(t) => Fetch(t, log)
          case Err(e) => Fetch(ErrorPrefix + e, log)
  }

  /** A launch is attempted exactly when the binary is present; a session, once created, is ended
      exactly once, as the last step, and without a session nothing is ended. */
  lemma ForwardQuitsOnce(m: Machine, url: string)
    ensures Count(ForwardSpec(m, url).log, CreateSession) == (if m.installed then 1 else 0)
    ensures Count(ForwardSpec(m, url).log, QuitSession) == (if Opens(m) then 1 else 0)
    ensures Opens(m) ==> ForwardSpec(m, url).log[|ForwardSpec(m, url).log| - 1] == QuitSession
  {
    var log := ForwardSpec(m, url).log;
    if !m.installed {
      assert log == [CheckDriver];
    } else if m.launch.Err? {
      assert log == [CheckDriver, CreateSession];
      assert log[1..] == [CreateSession] && log[1..][1..] == [];
    } else {
      SessionLogCounts(InSession(m, url).1);
    }
  }

  /** Steps follow the fixed order (binary check, launch, load, wait, body, quit) and none is
      repeated; only the given URL is requested, and it is requested whenever a session exists. */
  lemma ForwardOrder(m: Machine, url: string)
    ensures var log := ForwardSpec(m, url).log;
      forall i, j :: 0 <= i < j < |log| ==> Rank(log[i]) < Rank(log[j])
    ensures var log := ForwardSpec(m, url).log;
      forall i :: 0 <= i < |log| && log[i].LoadUrl? ==> log[i].url == url
    ensures Opens(m) ==> LoadUrl(url) in ForwardSpec(m, url).log
  {
    var log := ForwardSpec(m, url).log;
    if Opens(m) {
      var head := [CheckDriver, CreateSession];
      var steps := InSession(m, url).1;
      if m.load.Err? {
        assert log == head + [LoadUrl(url)] + [QuitSession];
      } else if m.wait.Err? {
        assert log == head + [LoadUrl(url), ImplicitWait(WaitSeconds)] + [QuitSession];
      } else {
        assert log == head + [LoadUrl(url), ImplicitWait(WaitSeconds), FindBody] + [QuitSession];
      }
    }
  }

  /** `forward` never raises: its text is the not-installed diagnostic, the page text under the
      truncation rule, or the error prefix followed by the message of a call that raised. */
  lemma ForwardNeverRaises(m: Machine, url: string)
    ensures var text := ForwardSpec(m, url).text;
      text == NotInstalled
      || (m.body.Ok? && text == Truncate(m.body.value))
      || (exists k :: 0 <= k < |Errors(m)| && text == ErrorPrefix + Errors(m)[k])
  {
    var text := ForwardSpec(m, url).text;
    var errors := Errors(m);
    if m.installed {
      if m.launch.Err? {
        assert errors[0] == m.launch.msg;
      } else if m.quit.Err? {
        assert errors[|errors| - 1] == m.quit.msg;
      } else if m.load.Err? {
        assert errors[0] == m.load.msg;
      } else if m.wait.Err? {
        assert errors[0] == m.wait.msg;
      } else if m.body.Err? {
        assert errors[0] == m.body.msg;
      }
    }
  }

  /** The inner `try` block of `forward`, inside an open session: load, wait, read the body. */
  method RunSession(driver: ChromeDriver, url: string) returns (outcome: Result<string>)
    requires driver.open
    modifies driver
    ensures outcome == InSession(driver.machine, url).0
    ensures driver.log == old(driver.log) + InSession(driver.machine, url).1
    ensures driver.open && driver.lastUrl == Some(url)
    ensures driver.sessions == old(driver.sessions) && driver.quits == old(driver.quits)
  {
    var loaded := driver.Get(url);
    if loaded.Err? {
      return Err(loaded.msg);
    }
    var waited := driver.ImplicitlyWait(WaitSeconds);
    if waited.Err? {
      return Err(waited.msg);
    }
    var body := driver.FindBodyText();
    outcome := if body.Err? then Err(body.msg) else Ok(Truncate(body.value));
  }

  /** `SeleniumWebpageTool.forward(url)` against a driver not yet in a session: it takes the steps
      of `ForwardSpec` and returns its text, leaves no session open, ends every session it
      created exactly once, and requests only `url`. */
  method Forward(driver: ChromeDriver, url: string) returns (text: string)
    requires !driver.open
    modifies driver
    ensures text == ForwardSpec(driver.machine, url).text
    ensures driver.log == old(driver.log) + ForwardSpec(driver.machine, url).log
    ensures !driver.open
    ensures driver.sessions == old(driver.sessions) + (if Opens(driver.machine) then 1 else 0)
    ensures driver.quits == old(driver.quits) + (if Opens(driver.machine) then 1 else 0)
    ensures driver.lastUrl == if Opens(driver.machine) then Some(url) else old(driver.lastUrl)
  {
    var found := driver.Which();
    if !found {
      return NotInstalled;
    }
    var launched := driver.Launch();
    if launched.Err? {
      return ErrorPrefix + launched.msg;
    }
    // try: the session's steps
    var outcome := RunSession(driver, url);
    // finally: quit, whose own error replaces the outcome
    var quitted := driver.Quit();
    if quitted.Err? {
      return ErrorPrefix + quitted.msg;
    }
    text := if outcome.Err? then ErrorPrefix + outcome.msg else outcome.value;
  }

  /** When every call succeeds, the text is the page body under the truncation rule: at most
      5016 characters, and the body itself when it has at most 5000. */
  lemma SuccessText(m: Machine, url: string)
    requires Opens(m) && m.load.Ok? && m.wait.Ok? && m.body.Ok? && m.quit.Ok?
    ensures ForwardSpec(m, url).text == Truncate(m.body.value)
    ensures |ForwardSpec(m, url).text| <= Truncation.MaxLength
    ensures |m.body.value| <= Truncation.Limit ==> ForwardSpec(m, url).text == m.body.value
  {
  }

  /** A failure inside the session is reported with its own message, and the session is still
      ended. */
  lemma SessionFailureText(m: Machine, url: string)
    requires Opens(m) && m.quit.Ok?
    ensures m.load.Err? ==> ForwardSpec(m, url).text == ErrorPrefix + m.load.msg
    ensures m.load.Ok? && m.wait.Err? ==> ForwardSpec(m, url).text == ErrorPrefix + m.wait.msg
    ensures m.load.Ok? && m.wait.Ok? && m.body.Err? ==> ForwardSpec(m, url).text == ErrorPrefix + m.body.msg
    ensures ForwardSpec(m, url).log[|ForwardSpec(m, url).log| - 1] == QuitSession
  {
  }

  /** A `quit` that raises replaces the outcome of the session, successful or not. */
  lemma QuitFailureWins(m: Machine, url: string)
    requires Opens(m) && m.quit.Err?
    ensures ForwardSpec(m, url).text == ErrorPrefix + m.quit.msg
  {
  }

  /** A launch that raises is reported, and nothing is ended because nothing was started. */
  lemma LaunchFailureText(m: Machine, url: string)
    requires m.installed && m.launch.Err?
    ensures ForwardSpec(m, url).text == ErrorPrefix + m.launch.msg
    ensures QuitSession !in ForwardSpec(m, url).log
  {
  }

  /** The successful fetch of the tool's own test: the body comes back unchanged, the given URL
      is requested and the session is ended once. */
  method SuccessfulFetchExample()
  {
    var m := Machine(true, Ok(()), Ok(()), Ok(()), Ok("Hello World"), Ok(()));
    var driver := new ChromeDriver(m);
    var text := Forward(driver, "http://example.com");
    SuccessText(m, "http://example.com");
    assert text == "Hello World";
    assert driver.lastUrl == Some("http://example.com");
    assert driver.quits == 1 && !driver.open;
  }
}
