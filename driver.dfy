/** The browser-automation driver, seen from the probe: every call either
    completes or raises with a message. What a particular browser does is fixed in
    advance by a `Script`; a `Driver` object keeps the calls made on it, in order,
    and how often it was quit. */
module Driver {
  import opened Outcomes

  /** How an element is looked up: by its `name` attribute or by an XPath query. */
  datatype Locator = ByName(name: string) | ByXPath(path: string)

  /** A handle returned by `find_element`. */
  datatype Element = Element(locator: Locator)

  /** One call the probe makes, in the order it makes them. `Settle` is the blind
      pause after submitting; it is not a driver call and never raises. */
  datatype Action =
    | Navigate(url: string)
    | WaitForPresence(locator: Locator, timeout: nat)
    | Find(locator: Locator)
    | SendKeys(locator: Locator, text: string)
    | Click(locator: Locator)
    | Settle(seconds: nat)
    | ReadUrl
    | ReadTitle
    | Quit

  /** The behaviour of one browser: whether it can be created, which call (by its
      position among the calls made on the session) raises with which text,
      whether `quit()` raises, and the URL and title it reports. */
  datatype Script = Script(
    creation: Outcome,
    faults: map<nat, string>,
    quitting: Outcome,
    url: string,
    title: string)
  {
    /** The outcome of the k-th call made on the session when it is a. */
    function OutcomeAt(k: nat, a: Action): (o: Outcome)
      ensures o.Raises? <==> !a.Settle? && k in faults
      ensures o.Raises? ==> o.message == faults[k]
    {
      if a.Settle? || k !in faults then Completes else Raises(faults[k])
    }
  }

  class Driver {
    /** The scripted behaviour of this browser session. */
    const script: Script
    /** The calls made on this session so far, in order. */
    var trace: seq<Action>
    /** How many times `quit()` was called. */
    var quits: nat

    /** `webdriver.Chrome(...)` when it succeeds. */
    constructor (s: Script)
      ensures script == s && trace == [] && quits == 0
    {
      script := s;
      trace := [];
      quits := 0;
    }

    /** Makes call a: it is appended to the trace and its scripted outcome returned. */
    method Perform(a: Action) returns (o: Outcome)
      modifies this`trace
      ensures trace == old(trace) + [a]
      ensures o == script.OutcomeAt(|old(trace)|, a)
    {
      o := script.OutcomeAt(|trace|, a);
      trace := trace + [a];
    }

    /** `driver.get(url)`. */
    method Get(url: string) returns (o: Outcome)
      modifies this`trace
      ensures trace == old(trace) + [Action.Navigate(url)]
      ensures o == script.OutcomeAt(|old(trace)|, Action.Navigate(url))
    {
      o := Perform(Action.Navigate(url));
    }

    /** `WebDriverWait(driver, timeout).until(presence_of_element_located(locator))`:
        a timeout is one way this call raises. */
    method WaitForPresence(locator: Locator, timeout: nat) returns (o: Outcome)
      modifies this`trace
      ensures trace == old(trace) + [Action.WaitForPresence(locator, timeout)]
      ensures o == script.OutcomeAt(|old(trace)|, Action.WaitForPresence(locator, timeout))
    {
      o := Perform(Action.WaitForPresence(locator, timeout));
    }

    /** `driver.find_element(locator)`. */
    method FindElement(locator: Locator) returns (e: Attempt<Element>)
      modifies this`trace
      ensures trace == old(trace) + [Action.Find(locator)]
      ensures e == match script.OutcomeAt(|old(trace)|, Action.Find(locator))
                   case Completes => Done(Element(locator))
                   case Raises(m) => Raised(m)
    {
      var o := Perform(Action.Find(locator));
      e := if o.Raises? then Raised(o.message) else Done(Element(locator));
    }

    /** `element.send_keys(text)`. */
    method SendKeys(e: Element, text: string) returns (o: Outcome)
      modifies this`trace
      ensures trace == old(trace) + [Action.SendKeys(e.locator, text)]
      ensures o == script.OutcomeAt(|old(trace)|, Action.SendKeys(e.locator, text))
    {
      o := Perform(Action.SendKeys(e.locator, text));
    }

    /** `element.click()`. */
    method Click(e: Element) returns (o: Outcome)
      modifies this`trace
      ensures trace == old(trace) + [Action.Click(e.locator)]
      ensures o == script.OutcomeAt(|old(trace)|, Action.Click(e.locator))
    {
      o := Perform(Action.Click(e.locator));
    }

    /** `time.sleep(seconds)`: recorded for its place in the order; it completes. */
    method Pause(seconds: nat)
      modifies this`trace
      ensures trace == old(trace) + [Action.Settle(seconds)]
    {
      var _ := Perform(Action.Settle(seconds));
    }

    /** The `current_url` property. */
    method CurrentUrl() returns (u: Attempt<string>)
      modifies this`trace
      ensures trace == old(trace) + [Action.ReadUrl]
      ensures u == match script.OutcomeAt(|old(trace)|, Action.ReadUrl)
                   case Completes => Done(script.url)
                   case Raises(m) => Raised(m)
    {
      var o := Perform(Action.ReadUrl);
      u := if o.Raises? then Raised(o.message) else Done(script.url);
    }

    /** The `title` property. */
    method Title() returns (t: Attempt<string>)
      modifies this`trace
      ensures trace == old(trace) + [Action.ReadTitle]
      ensures t == match script.OutcomeAt(|old(trace)|, Action.ReadTitle)
                   case Completes => Done(script.title)
                   case Raises(m) => Raised(m)
    {
      var o := Perform(Action.ReadTitle);
      t := if o.Raises? then Raised(o.message) else Done(script.title);
    }

    /** `driver.quit()`: recorded and counted; raises when the script says so. */
    method Quit() returns (o: Outcome)
      modifies this`trace, this`quits
      ensures trace == old(trace) + [Action.Quit]
      ensures quits == old(quits) + 1
      ensures o == script.quitting
    {
      trace := trace + [Action.Quit];
      quits := quits + 1;
      o := script.quitting;
    }
  }

  /** `setup_chrome_driver()`: a fresh session, or `None` when creating the
      browser raises (the exception is logged and swallowed). */
  method SetupChromeDriver(s: Script) returns (d: Driver?)
    ensures d == null <==> s.creation.Raises?
    ensures d != null ==> fresh(d) && d.script == s && d.trace == [] && d.quits == 0
  {
    if s.creation.Raises? {
      d := null;
    } else {
      d := new Driver(s);
    }
  }
}
