# Semaphore login probe, modelled in Dafny

This project models the login probe of the repository's Selenium form script
(`ansible/python_scripts/selenium_form.py`). The probe does five things:

- It opens a headless Chrome session.
- It loads the Semaphore UI at `http://localhost:3000`.
- It waits up to 10 seconds for the `username` field, types the `admin`
  credentials and clicks the submit button.
- It pauses 3 seconds, then reads the page's URL and title.
- It returns one flat JSON record.

The record's status is `success` when the lower-cased URL contains `dashboard`
or `project`, and `failed` otherwise. Any exception inside the `try` block gives
an `error` record that carries the exception's text. The `finally` clause quits
the browser session on every path. `main` prints the returned record. It prints
nothing when no driver could be created. It prints a fallback error record when
the probe itself raised.

The browser is an abstract, scripted driver. A `Script` fixes five things:

- whether creating the browser raises;
- which call on the session raises, given by its position, and with what text;
- whether `quit()` raises;
- the URL that `current_url` returns;
- the title that `title` returns.

A `Driver` object records every call made on it in order, `quit()` included,
and counts its quits. The pure functions `LoginOutcome` and `MainOutput` say
what `test_semaphore_login` and `main` produce for a script. The methods
`TestSemaphoreLogin` and `RunMain` perform the calls on a `Driver`, and their
contracts prove that they produce exactly what those functions give.
`FillLoginForm` and `LoginAttempt` run the `try` block. Their contracts state
the calls made and the outcome: the calls follow the step order, every call but
the last completed, and the result is the last call's exception or the completed
record. `FillLoginForm` is the first half of the `try` block (lines 49-62: load
the page, wait for the form, type the credentials). It is a method of its own so
that each proof stays small.
Python exceptions are failure values (`Outcome`, `Attempt`), and Dafny's `:-`
gives the early exit of a `try` block at the first statement that raises.

Files:

- `outcomes.dfy`: the outcome types.
- `records.dfy`: the record, its key set, ASCII lower-casing, substring search and
  the URL classification.
- `driver.dfy`: the scripted driver and `setup_chrome_driver`.
- `selenium_form.dfy`: the step list, the reference functions, the probe methods
  and the laws.

Two behaviours of the code are easy to miss:

- When the browser cannot be created, `setup_chrome_driver` returns `None`
  (selenium_form.py:36-38), `test_semaphore_login` returns `None` before its
  `try` (lines 42-44), and `main` prints no record at all, not an error record.
- `main`'s fallback record has no `automation_type` key (lines 114-120).

## Model

| member | source | states |
|---|---|---|
| Records.Classify | ansible/python_scripts/selenium_form.py:85 | the status is success exactly when the lower-cased URL has an occurrence of "dashboard" or of "project", failed otherwise, and never error |
| Records.ContainsMeansOccurs | ansible/python_scripts/selenium_form.py:85 | Python's `needle in hay` holds exactly when some offset of hay starts a copy of needle |
| Records.CompletedRecord | ansible/python_scripts/selenium_form.py:77-86 | a completed run's record has the selenium log type and login automation type, the given timestamp, host name and elapsed time, the URL and title read from the driver, the status classified from that URL (written "success" or "failed"), exactly the eight keys including `execution_time_ms`, and no `error` key |
| Records.ErrorRecord | ansible/python_scripts/selenium_form.py:90-98 | an exception's record has the selenium log type and login automation type, the given timestamp and host name, status "error", `error` equal to the exception text, and exactly the keys log_type, automation_type, timestamp, hostname, status and error |
| Records.FallbackRecord | ansible/python_scripts/selenium_form.py:113-120 | main's fallback record has status "error", the exception text, the selenium log type, the given timestamp and host name, and no `automation_type` key |
| Records.Lower | ansible/python_scripts/selenium_form.py:85 | `.lower()` keeps the length and lower-cases each ASCII letter; no upper-case ASCII letter is left |
| Records.Contains | ansible/python_scripts/selenium_form.py:85 | `needle in hay` holds only when the needle fits in hay, and always holds for the empty needle |
| SeleniumForm.TryBlock | ansible/python_scripts/selenium_form.py:46-88 | the try body completes exactly when no step raises, and then yields the completed record of the URL and title; otherwise it raises with the text of a raising step that no earlier step precedes |
| SeleniumForm.Handled | ansible/python_scripts/selenium_form.py:90-98 | the except clause passes a completed record through unchanged and turns an exception into an error record with its text, the automation type and no timing or URL keys |
| SeleniumForm.LoginOutcome | ansible/python_scripts/selenium_form.py:40-101 | `test_semaphore_login` returns None exactly when the driver cannot be created, raises exactly when `quit()` raises, with quit's text, and any record it returns obeys the error-key law and carries the selenium log type |
| SeleniumForm.MainOutput | ansible/python_scripts/selenium_form.py:103-122 | main prints nothing exactly when the probe returned None, prints a returned record unchanged, and prints an error record with the exception text and no automation type when the probe raised |
| Driver.SetupChromeDriver | ansible/python_scripts/selenium_form.py:33-38 | the result is None exactly when creating the browser raises; otherwise it is a fresh session with no calls made and no quits |
| Driver.Driver.constructor | ansible/python_scripts/selenium_form.py:34 | a new session follows the given script, with an empty call trace and zero quits |
| Driver.Driver.Perform | ansible/python_scripts/selenium_form.py:50-73 | each call is appended to the trace and yields the outcome the script gives for its position |
| Driver.Driver.Get | ansible/python_scripts/selenium_form.py:50 | navigation is recorded and completes or raises as scripted |
| Driver.Driver.WaitForPresence | ansible/python_scripts/selenium_form.py:53-55 | the bounded wait for the `username` field is recorded with its timeout and raises as scripted, which covers a timeout |
| Driver.Driver.FindElement | ansible/python_scripts/selenium_form.py:58-59 | a lookup returns the element for its locator or raises as scripted |
| Driver.Driver.SendKeys | ansible/python_scripts/selenium_form.py:61-62 | typing into an element is recorded with the text and raises as scripted |
| Driver.Driver.Click | ansible/python_scripts/selenium_form.py:65-66 | clicking the submit button is recorded and raises as scripted |
| Driver.Driver.Pause | ansible/python_scripts/selenium_form.py:69 | the 3-second settle pause takes its place in the order and never raises |
| Driver.Driver.CurrentUrl | ansible/python_scripts/selenium_form.py:72 | reading `current_url` returns the browser's URL or raises as scripted |
| Driver.Driver.Title | ansible/python_scripts/selenium_form.py:73 | reading `title` returns the browser's title or raises as scripted |
| Driver.Driver.Quit | ansible/python_scripts/selenium_form.py:99-101 | quitting is appended to the trace, adds one to the quit count, and raises as scripted |
| SeleniumForm.FirstRaise | ansible/python_scripts/selenium_form.py:46-73 | the index found is a step that raises, with no raising step before it; none is found only when no step raises |
| SeleniumForm.FillLoginForm | ansible/python_scripts/selenium_form.py:49-62 | navigation, the wait and the form filling run in order, make at most those six calls, and stop at the first call that raises, which yields that call's text |
| SeleniumForm.LoginAttempt | ansible/python_scripts/selenium_form.py:46-88 | the try block makes the login steps in order; it ends with the first raising step's exception, or after all eleven steps with the completed record of the URL and title read |
| SeleniumForm.TestSemaphoreLogin | ansible/python_scripts/selenium_form.py:40-101 | no driver means None and no session; otherwise the session's calls are the steps up to the first that raised followed by one `quit()`, so the session is quit exactly once and after the try block, and the result equals the reference outcome |
| SeleniumForm.RunMain | ansible/python_scripts/selenium_form.py:103-122 | main prints nothing exactly when the driver could not be created; anything it prints obeys the error-key law and carries the selenium log type |
| SeleniumForm.ClassifySuccessExamples | ansible/python_scripts/selenium_form.py:85 | the dashboard URL, the same URL in upper case, and a project URL are classified success |
| SeleniumForm.ClassifyLoginPageFails | ansible/python_scripts/selenium_form.py:85 | the login page URL is classified failed |
| SeleniumForm.ClassifyIgnoresCase | ansible/python_scripts/selenium_form.py:85 | lower-casing a URL first never changes its classification |
| SeleniumForm.CompletedRunRecord | ansible/python_scripts/selenium_form.py:72-88 | when no step raises, all steps run and the record is success or failed as classified, carries the elapsed time, the URL read and the title, and has no `error` key |
| SeleniumForm.RaisingStepRecord | ansible/python_scripts/selenium_form.py:90-98 | when step k is the first that raises, no later step runs and the result is the error record with that step's exception text and no timing, URL or title keys |
| SeleniumForm.WaitTimeoutRecord | ansible/python_scripts/selenium_form.py:53-55 | a timeout while waiting for `username` gives the error record with the timeout's text after only the page load and the wait |
| SeleniumForm.NoDriverNoOutput | ansible/python_scripts/selenium_form.py:42-44 | the probe returns None, and main prints nothing, exactly when the driver could not be created |
| SeleniumForm.LoginRecordLaws | ansible/python_scripts/selenium_form.py:77-98 | every returned record has the `error` key exactly when its status is error, carries both type tags and the given timestamp and host name, is an error exactly when some step raised, and is otherwise classified from the URL read |
| SeleniumForm.QuitFailureFallback | ansible/python_scripts/selenium_form.py:99-101 | when `quit()` raises, its exception replaces the record and main prints the fallback error record with its text and no automation type |
| SeleniumForm.MainOutputLaws | ansible/python_scripts/selenium_form.py:107-121 | whatever main prints has the `error` key exactly when its status is error, and the selenium log type |
| SeleniumForm.TraceOrder | ansible/python_scripts/selenium_form.py:50-73 | the calls made are a prefix of the fixed step order, every call but the last completed, and a short prefix ends at a raising step |

## Left out

- Records.Lower: lower-cases ASCII letters only; Python's `str.lower()` also folds other Unicode letters.
- Records.CompletedRecord: the elapsed time is an input value. The model does not compute `round((time.time() - start) * 1000, 2)`.
- Chrome option construction and setting `DISPLAY` (lines 23-31) are not modelled. They configure the external browser.
- `datetime.now().isoformat()` and `socket.gethostname()` are parameters (`Env`), and they never raise in the model. One `Env` serves every record of a run.
- `time.sleep(3)` is recorded in the call order only. It takes no time in the model and cannot raise.
- JSON serialisation, `print` and all logging (lines 18-19, 37, 111, 122) are not modelled. `main`'s output is the record it would print, or none.
- In the model, `main`'s fallback record has one cause: `quit()` raising in the `finally` clause. Other ways `test_semaphore_login` itself could raise are not modelled, because they are failures of the timestamp, host-name or option calls above.
- The browser's behaviour is a script fixed in advance. The model does not simulate pages, elements or a clock.
- `ansible/python_scripts/system_monitor.py` is not part of this model. It copies library values and computes only floating-point figures.
