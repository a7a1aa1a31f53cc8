/** The records the login probe returns, and the classification of the final URL.
    A Python dict with optional keys becomes a datatype whose optional keys are
    `Option` fields; `Keys` gives the dict's key set, so that statements such as
    "the record has no `error` key" can be written down. */
module Records {
  import opened Outcomes

  const LogType: string := "selenium_automation"
  const AutomationType: string := "semaphore_login"

  /** The three values of the `status` key. */
  datatype Status = Success | Failed | Error {
    /** The string the record carries. */
    function Name(): (s: string)
      ensures s in {"success", "failed", "error"}
    {
      match this
      case Success => "success"
      case Failed => "failed"
      case Error => "error"
    }
  }

  /** Values that come from outside the probe: the ISO-8601 timestamp
      (`datetime.now().isoformat()`), the host name (`socket.gethostname()`) and
      the elapsed time in milliseconds, already rounded. */
  datatype Env = Env(timestamp: string, hostname: string, elapsedMs: real)

  /** One flat JSON record. */
  datatype Record = Record(
    logType: string,
    automationType: Option<string>,
    timestamp: string,
    hostname: string,
    executionTimeMs: Option<real>,
    finalUrl: Option<string>,
    pageTitle: Option<string>,
    status: Status,
    error: Option<string>)

  /** The keys of the dict the record stands for. */
  function Keys(r: Record): set<string> {
    {"log_type", "timestamp", "hostname", "status"}
    + (if r.automationType.Some? then {"automation_type"} else {})
    + (if r.executionTimeMs.Some? then {"execution_time_ms"} else {})
    + (if r.finalUrl.Some? then {"final_url"} else {})
    + (if r.pageTitle.Some? then {"page_title"} else {})
    + (if r.error.Some? then {"error"} else {})
  }

  /** The envelope law: the `error` key is present exactly when the status is error. */
  predicate WellFormed(r: Record) {
    ("error" in Keys(r)) <==> r.status == Error
  }

  // ---------------------------------------------------------------------------
  // Text: ASCII lower-casing and substring search (Python's `str.lower` and `in`)

  function LowerChar(c: char): (d: char)
    ensures 'A' <= c <= 'Z' ==> d as int == c as int + 32
    ensures !('A' <= c <= 'Z') ==> d == c
    ensures !('A' <= d <= 'Z')
  {
    if 'A' <= c <= 'Z' then (c as int + 32) as char else c
  }

  /** Lower-cases the ASCII letters of s and keeps every other character. */
  function Lower(s: string): (r: string)
    ensures |r| == |s|
    ensures forall i :: 0 <= i < |s| ==> r[i] == LowerChar(s[i])
  {
    seq(|s|, i requires 0 <= i < |s| => LowerChar(s[i]))
  }

  /** `needle in hay`, searched from the front of hay. A match needs the
      needle to fit in hay, and the empty needle is in every string. */
  function Contains(hay: string, needle: string): (r: bool)
    ensures r ==> |needle| <= |hay|
    ensures needle == [] ==> r
    decreases |hay|
  {
    |needle| <= |hay| && (hay[..|needle|] == needle || Contains(hay[1..], needle))
  }

  /** needle occurs in hay at offset i. */
  predicate OccursAt(hay: string, needle: string, i: int) {
    0 <= i && i + |needle| <= |hay| && hay[i..i + |needle|] == needle
  }

  /** The meaning of `needle in hay`: some offset of hay starts a copy of needle. */
  ghost predicate Occurs(hay: string, needle: string) {
    exists i :: OccursAt(hay, needle, i)
  }

  lemma {:induction false} ContainsMeansOccurs(hay: string, needle: string)
    ensures Contains(hay, needle) <==> Occurs(hay, needle)
    decreases |hay|
  {
    if Contains(hay, needle) {
      if hay[..|needle|] == needle {
        assert OccursAt(hay, needle, 0);
      } else {
        ContainsMeansOccurs(hay[1..], needle);
        var i :| OccursAt(hay[1..], needle, i);
        assert hay[1..][i..i + |needle|] == hay[i + 1..i + 1 + |needle|];
        assert OccursAt(hay, needle, i + 1);
      }
    }
    if Occurs(hay, needle) {
      var i :| OccursAt(hay, needle, i);
      if i > 0 {
        assert hay[1..][i - 1..i - 1 + |needle|] == hay[i..i + |needle|];
        assert OccursAt(hay[1..], needle, i - 1);
        ContainsMeansOccurs(hay[1..], needle);
      }
    }
  }

  /** A needle cannot occur in a hay that lacks one of its characters. */
  lemma NotOccursWithoutChar(hay: string, needle: string, j: nat)
    requires j < |needle| && needle[j] !in hay
    ensures !Occurs(hay, needle)
  {
  }

  // ---------------------------------------------------------------------------
  // Classification of the page reached after submitting the form

  /** success when the lower-cased final URL contains "dashboard" or "project",
      failed otherwise; never error. */
  function Classify(url: string): (s: Status)
    ensures s != Error
    ensures s == Success <==> Occurs(Lower(url), "dashboard") || Occurs(Lower(url), "project")
  {
    ContainsMeansOccurs(Lower(url), "dashboard");
    ContainsMeansOccurs(Lower(url), "project");
    if Contains(Lower(url), "dashboard") || Contains(Lower(url), "project") then Success else Failed
  }

  // ---------------------------------------------------------------------------
  // The three record shapes

  /** The record of a run whose steps all completed. */
  function CompletedRecord(url: string, title: string, env: Env): (r: Record)
    ensures r.logType == LogType && r.automationType == Some(AutomationType)
    ensures r.timestamp == env.timestamp && r.hostname == env.hostname
    ensures r.executionTimeMs == Some(env.elapsedMs)
    ensures r.status == Classify(url) && r.finalUrl == Some(url) && r.pageTitle == Some(title)
    ensures r.status.Name() in {"success", "failed"}
    ensures Keys(r) == {"log_type", "automation_type", "timestamp", "hostname",
                        "execution_time_ms", "final_url", "page_title", "status"}
    ensures WellFormed(r)
  {
    Record(LogType, Some(AutomationType), env.timestamp, env.hostname,
           Some(env.elapsedMs), Some(url), Some(title), Classify(url), None)
  }

  /** The record of a run interrupted by an exception with the given text. */
  function ErrorRecord(message: string, env: Env): (r: Record)
    ensures r.logType == LogType && r.automationType == Some(AutomationType)
    ensures r.timestamp == env.timestamp && r.hostname == env.hostname
    ensures r.status == Error && r.status.Name() == "error" && r.error == Some(message)
    ensures Keys(r) == {"log_type", "automation_type", "timestamp", "hostname", "status", "error"}
    ensures WellFormed(r)
  {
    Record(LogType, Some(AutomationType), env.timestamp, env.hostname,
           None, None, None, Error, Some(message))
  }

  /** The record main prints when the probe itself raised: no automation type. */
  function FallbackRecord(message: string, env: Env): (r: Record)
    ensures r.status == Error && r.status.Name() == "error" && r.error == Some(message)
    ensures r.logType == LogType && r.timestamp == env.timestamp && r.hostname == env.hostname
    ensures Keys(r) == {"log_type", "timestamp", "hostname", "status", "error"}
    ensures WellFormed(r)
  {
    Record(LogType, None, env.timestamp, env.hostname, None, None, None, Error, Some(message))
  }
}
