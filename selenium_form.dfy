/** The Semaphore login probe: `test_semaphore_login` drives a browser through a
    fixed sequence of calls inside try/except/finally, and `main` prints the
    record it returns, or a fallback error record when it raises.

    The pure functions `LoginOutcome` and `MainOutput` say what the probe returns
    for a scripted browser; the methods run the same steps on a `Driver` object and
    are proved to return exactly that, and the lemmas state the probe's laws. */
module SeleniumForm {
  import opened Outcomes
  import opened Records
  import opened Driver

  const TargetUrl: string := "http://localhost:3000"
  const UserName: string := "admin"
  const Password: string := "semaphorepassword"
  const SubmitButton: Locator := ByXPath("//button[@type='submit']")
  const WaitTimeout: nat := 10
  const SettleSeconds: nat := 3

  /** The calls of the try block, in order. */
  const LoginSteps: seq<Action> := [
    Navigate(TargetUrl),
    WaitForPresence(ByName("username"), WaitTimeout),
    Find(ByName("username")),
    Find(ByName("password")),
    SendKeys(ByName("username"), UserName),
    SendKeys(ByName("password"), Password),
    Find(SubmitButton),
    Click(SubmitButton),
    Settle(SettleSeconds),
    ReadUrl,
    ReadTitle
  ]

  /** Step k of the try block raises on this browser. */
  predicate RaisesAt(s: Script, k: nat)
    requires k < |LoginSteps|
  {
    s.OutcomeAt(k, LoginSteps[k]).Raises?
  }

  /** The first step at or after k that raises, if any. */
  function FirstRaise(s: Script, k: nat): (r: Option<nat>)
    requires k <= |LoginSteps|
    ensures r.Some? ==> k <= r.value < |LoginSteps| && RaisesAt(s, r.value)
                        && forall i :: k <= i < r.value ==> !RaisesAt(s, i)
    ensures r.None? ==> forall i :: k <= i < |LoginSteps| ==> !RaisesAt(s, i)
    decreases |LoginSteps| - k
  {
    if k == |LoginSteps| then None
    else if RaisesAt(s, k) then Some(k)
    else FirstRaise(s, k + 1)
  }

  /** The calls the try block makes: every step up to and including the first
      that raises, or all of them. */
  function TraceOf(s: Script): seq<Action> {
    match FirstRaise(s, 0)
    case Some(j) => LoginSteps[..j + 1]
    case None => LoginSteps
  }

  /** What the try block yields: the completed record, or the first exception. */
  function TryBlock(s: Script, env: Env): (a: Attempt<Record>)
    ensures a.Done? <==> forall k :: 0 <= k < |LoginSteps| ==> !RaisesAt(s, k)
    ensures a.Done? ==> a.value == CompletedRecord(s.url, s.title, env)
    ensures a.Raised? ==> exists k :: 0 <= k < |LoginSteps| && RaisesAt(s, k)
                                      && a.message == s.faults[k]
                                      && forall i :: 0 <= i < k ==> !RaisesAt(s, i)
  {
    match FirstRaise(s, 0)
    case Some(j) => Raised(s.faults[j])
    case None => Done(CompletedRecord(s.url, s.title, env))
  }

  /** The except clause: an exception becomes an error record with its text. */
  function Handled(a: Attempt<Record>, env: Env): (r: Record)
    ensures a.Done? ==> r == a.value
    ensures a.Raised? ==> r.status == Error && r.error == Some(a.message)
                          && r.automationType == Some(AutomationType)
                          && "execution_time_ms" !in Keys(r) && "final_url" !in Keys(r)
  {
    match a
    case Done(r) => r
    case Raised(m) => ErrorRecord(m, env)
  }

  /** What `test_semaphore_login` returns (Done) or raises (Raised). Without a
      driver it returns None before the try; otherwise the finally clause quits the
      driver, and an exception from `quit()` replaces the record. */
  function LoginOutcome(s: Script, env: Env): (o: Attempt<Option<Record>>)
    ensures o == Done(None) <==> s.creation.Raises?
    ensures o.Raised? <==> s.creation.Completes? && s.quitting.Raises?
    ensures o.Raised? ==> o.message == s.quitting.message
    ensures o.Done? && o.value.Some? ==> WellFormed(o.value.value) && o.value.value.logType == LogType
  {
    if s.creation.Raises? then Done(None)
    else match s.quitting
         case Raises(m) => Raised(m)
         case Completes => Done(Some(Handled(TryBlock(s, env), env)))
  }

  /** What `main` prints: the returned record (nothing for None), or the fallback
      error record when the probe raised. */
  function MainOutput(returned: Attempt<Option<Record>>, env: Env): (p: Option<Record>)
    ensures p.None? <==> returned == Done(None)
    ensures returned.Done? ==> p == returned.value
    ensures returned.Raised? ==> p.Some? && p.value.status == Error
                                 && p.value.error == Some(returned.message)
                                 && p.value.automationType.None?
  {
    match returned
    case Done(r) => r
    case Raised(m) => Some(FallbackRecord(m, env))
  }

  // ---------------------------------------------------------------------------
  // The probe as it runs on a driver object

  /** The calls the session has seen are the first |t| login steps, and every one
      of them but the last completed. */
  ghost predicate RanInOrder(s: Script, t: seq<Action>) {
    0 < |t| <= |LoginSteps| && t == LoginSteps[..|t|]
    && forall i :: 0 <= i < |t| - 1 ==> !RaisesAt(s, i)
  }

  /** A step that completed lets the run go on to the next step of the list. */
  lemma NextStep(s: Script, t: seq<Action>)
    requires RanInOrder(s, t) && |t| < |LoginSteps| && !RaisesAt(s, |t| - 1)
    ensures RanInOrder(s, t + [LoginSteps[|t|]])
  {
    assert LoginSteps[..|t| + 1] == LoginSteps[..|t|] + [LoginSteps[|t|]];
  }

  /** The first part of the try block: open the page, wait for the form and type
      the credentials. It stops at the first call that raises. */
  method FillLoginForm(d: Driver) returns (o: Outcome)
    requires d.trace == []
    modifies d`trace
    ensures RanInOrder(d.script, d.trace)
    ensures o.Raises? <==> RaisesAt(d.script, |d.trace| - 1)
    ensures o.Raises? ==> o.message == d.script.faults[|d.trace| - 1]
    ensures |d.trace| <= 6
    ensures o.Completes? ==> |d.trace| == 6
  {
    o := d.Get(TargetUrl);
    if o.Raises? { return; }
    NextStep(d.script, d.trace);
    o := d.WaitForPresence(ByName("username"), WaitTimeout);
    if o.Raises? { return; }
    NextStep(d.script, d.trace);
    var userField := d.FindElement(ByName("username"));
    if userField.Raised? { return Raises(userField.message); }
    NextStep(d.script, d.trace);
    var passwordField := d.FindElement(ByName("password"));
    if passwordField.Raised? { return Raises(passwordField.message); }
    NextStep(d.script, d.trace);
    o := d.SendKeys(userField.value, UserName);
    if o.Raises? { return; }
    NextStep(d.script, d.trace);
    o := d.SendKeys(passwordField.value, Password);
  }

  /** The body of the try block on a fresh session: each call's exception ends
      the block (`:-`); otherwise the page's URL and title make the record. */
  method LoginAttempt(d: Driver, env: Env) returns (a: Attempt<Record>)
    requires d.trace == []
    modifies d`trace
    ensures RanInOrder(d.script, d.trace)
    ensures a.Raised? <==> RaisesAt(d.script, |d.trace| - 1)
    ensures a.Raised? ==> a.message == d.script.faults[|d.trace| - 1]
    ensures a.Done? ==> |d.trace| == |LoginSteps|
                        && a.value == CompletedRecord(d.script.url, d.script.title, env)
  {
    var filled := FillLoginForm(d);
    if filled.Raises? {
      return Raised(filled.message);
    }
    var loginButton :- d.FindElement(SubmitButton);
    :- d.Click(loginButton);
    d.Pause(SettleSeconds);
    var currentUrl :- d.CurrentUrl();
    var pageTitle :- d.Title();
    a := Done(CompletedRecord(currentUrl, pageTitle, env));
  }

  /** `test_semaphore_login()`. Without a driver it returns None and quits
      nothing; with one, the driver is quit exactly once whichever way the try
      block ended, and the result is the one `LoginOutcome` gives. The driver is
      returned beside the result so that its trace and quit count can be stated. */
  method TestSemaphoreLogin(s: Script, env: Env) returns (res: Attempt<Option<Record>>, driver: Driver?)
    ensures driver == null <==> s.creation.Raises?
    ensures driver != null ==> fresh(driver) && driver.quits == 1
                               && driver.trace == TraceOf(s) + [Action.Quit]
    ensures res == LoginOutcome(s, env)
  {
    driver := SetupChromeDriver(s);
    if driver == null {
      return Done(None), null;
    }
    var attempt := LoginAttempt(driver, env);
    var record := Handled(attempt, env);
    var quitting := driver.Quit();
    res := if quitting.Raises? then Raised(quitting.message) else Done(Some(record));
  }

  /** `main()`: prints the record the probe returned, nothing when it returned
      None, and the fallback error record when it raised. */
  method RunMain(s: Script, env: Env) returns (printed: Option<Record>)
    ensures printed == MainOutput(LoginOutcome(s, env), env)
    ensures printed.None? <==> s.creation.Raises?
    ensures printed.Some? ==> WellFormed(printed.value) && printed.value.logType == LogType
  {
    var returned, _ := TestSemaphoreLogin(s, env);
    printed := MainOutput(returned, env);
    MainOutputLaws(s, env);
  }

  // ---------------------------------------------------------------------------
  // Laws of the probe

  /** The Semaphore dashboard and project pages count as a successful login,
      in any case. */
  lemma ClassifySuccessExamples()
    ensures Classify("http://localhost:3000/dashboard") == Success
    ensures Classify("HTTP://LOCALHOST:3000/DASHBOARD") == Success
    ensures Classify("http://localhost:3000/project/1/templates") == Success
  {
    assert OccursAt(Lower("http://localhost:3000/dashboard"), "dashboard", 22);
    assert OccursAt(Lower("HTTP://LOCALHOST:3000/DASHBOARD"), "dashboard", 22);
    var project := "http://localhost:3000/project/1/templates";
    assert project[22..29] == "project";
    assert Lower(project)[22..29] == "project";
    assert OccursAt(Lower(project), "project", 22);
  }

  /** Staying on the login page is a failed login. */
  lemma ClassifyLoginPageFails()
    ensures Classify("http://localhost:3000/login") == Failed
  {
    var login := "http://localhost:3000/login";
    assert Lower(login) == login;
    NotOccursWithoutChar(login, "dashboard", 0);
    NotOccursWithoutChar(login, "project", 3);
  }

  /** Lower-casing the URL first does not change its classification. */
  lemma ClassifyIgnoresCase(url: string)
    ensures Classify(Lower(url)) == Classify(url)
  {
    assert Lower(Lower(url)) == Lower(url);
  }

  /** A run in which no step raises ends in a success or failed record that
      carries the timing, the URL read from the driver and the page title, and has
      no error key. */
  lemma CompletedRunRecord(s: Script, env: Env)
    requires s.creation.Completes? && s.quitting.Completes?
    requires forall k :: 0 <= k < |LoginSteps| ==> !RaisesAt(s, k)
    ensures TraceOf(s) == LoginSteps
    ensures LoginOutcome(s, env).Done? && LoginOutcome(s, env).value.Some?
    ensures var r := LoginOutcome(s, env).value.value;
      r.status != Error && r.status == Classify(s.url)
      && r.executionTimeMs == Some(env.elapsedMs)
      && r.finalUrl == Some(s.url) && r.pageTitle == Some(s.title)
      && "error" !in Keys(r)
  {
  }

  /** When step k is the first step that raises, the probe returns an error
      record carrying the exception's text and none of the timing, URL or title
      keys, and no step after k was called. */
  lemma RaisingStepRecord(s: Script, env: Env, k: nat)
    requires s.creation.Completes? && s.quitting.Completes?
    requires k < |LoginSteps| && RaisesAt(s, k)
    requires forall i :: 0 <= i < k ==> !RaisesAt(s, i)
    ensures TraceOf(s) == LoginSteps[..k + 1]
    ensures LoginOutcome(s, env) == Done(Some(ErrorRecord(s.faults[k], env)))
    ensures var r := ErrorRecord(s.faults[k], env);
      r.status == Error && r.error == Some(s.faults[k])
      && "execution_time_ms" !in Keys(r) && "final_url" !in Keys(r) && "page_title" !in Keys(r)
  {
  }

  /** The wait for the username field timing out (step 1) is reported as an error
      record with the timeout's text; only the page load and the wait were called. */
  lemma WaitTimeoutRecord(s: Script, env: Env, timeoutText: string)
    requires s.creation.Completes? && s.quitting.Completes?
    requires 0 !in s.faults && 1 in s.faults && s.faults[1] == timeoutText
    ensures TraceOf(s) == [Navigate(TargetUrl), WaitForPresence(ByName("username"), 10)]
    ensures LoginOutcome(s, env) == Done(Some(ErrorRecord(timeoutText, env)))
  {
  }

  /** Without a driver there is no record at all, and main prints nothing; with
      one, main always prints a record. */
  lemma NoDriverNoOutput(s: Script, env: Env)
    ensures LoginOutcome(s, env) == Done(None) <==> s.creation.Raises?
    ensures MainOutput(LoginOutcome(s, env), env).None? <==> s.creation.Raises?
  {
  }

  /** Every record the probe returns obeys the envelope law (error key exactly
      when the status is error), carries both type tags, and has status error
      exactly when some step raised. */
  lemma LoginRecordLaws(s: Script, env: Env)
    requires LoginOutcome(s, env).Done? && LoginOutcome(s, env).value.Some?
    ensures var r := LoginOutcome(s, env).value.value;
      WellFormed(r) && r.logType == LogType && r.automationType == Some(AutomationType)
      && r.timestamp == env.timestamp && r.hostname == env.hostname
      && (r.status == Error <==> exists k :: 0 <= k < |LoginSteps| && RaisesAt(s, k))
      && (r.status != Error ==> r.status == Classify(s.url) && r.finalUrl == Some(s.url))
  {
  }

  /** When `quit()` raises, main prints the fallback record: status error with
      the exception's text and the log type, but no automation type. */
  lemma QuitFailureFallback(s: Script, env: Env)
    requires s.creation.Completes? && s.quitting.Raises?
    ensures MainOutput(LoginOutcome(s, env), env) == Some(FallbackRecord(s.quitting.message, env))
    ensures var r := FallbackRecord(s.quitting.message, env);
      r.status == Error && r.logType == LogType && "automation_type" !in Keys(r)
  {
  }

  /** Whatever main prints obeys the envelope law and carries the log type. */
  lemma MainOutputLaws(s: Script, env: Env)
    ensures var p := MainOutput(LoginOutcome(s, env), env);
      p.Some? ==> WellFormed(p.value) && p.value.logType == LogType
  {
  }

  /** The steps run in the fixed order and none runs after the first that raises. */
  lemma TraceOrder(s: Script)
    ensures 0 < |TraceOf(s)| <= |LoginSteps| && TraceOf(s) == LoginSteps[..|TraceOf(s)|]
    ensures forall i :: 0 <= i < |TraceOf(s)| - 1 ==> !RaisesAt(s, i)
    ensures |TraceOf(s)| < |LoginSteps| ==> RaisesAt(s, |TraceOf(s)| - 1)
  {
  }
}
