/**
 * The security audit of a request's original photo (`AuditService`): one
 * JSON call to the vision model, retried on rate limiting, whose reply
 * becomes an audit report with defaults for every missing key.
 *
 * The vision model is an oracle: attempt `n` receives `backend(n)`. JSON
 * decoding is the oracle `parse`; waits are returned instead of slept.
 */
module AuditService {
  import opened Common
  import X = Executor

  /** The report's fields, as the reply's values or their defaults. */
  datatype AuditReport = AuditReport(
    groundLevelAccess: Val,
    concealment: Val,
    glassProximity: Val,
    hardwareWeakness: Val,
    vulnerabilities: Val,
    summary: Val)

  const MAX_RETRIES := 3
  const PARSE_FALLBACK_PREFIX := "Could not parse AI response. Raw: "
  const DEFAULT_SUMMARY := "Analysis completed."

  /** The keys `perform_audit` reads from the reply. */
  const REPORT_KEYS := {"has_ground_level_access", "has_concealment", "has_glass_proximity",
                        "has_hardware_weakness", "vulnerabilities", "analysis_summary"}

  /** The keys the audit prompt asks the model to return. */
  const PROMPT_KEYS := {"has_tree_clearance_needed", "has_structure_relocation_needed", "has_grading_needed",
                        "has_access_considerations", "site_items", "assessment_summary"}

  /** The outcome of the request loop: a response or the error that ended it, and the attempts made. */
  datatype Attempts = Attempts(response: Result<seq<X.Part>, string>, calls: nat, waits: seq<nat>)

  /**
   * The request loop from attempt `attempt` on: an error mentioning "429"
   * is retried after 2·(attempt+1) seconds while attempts remain; any other
   * error, or a "429" on the last attempt, is re-raised.
   */
  function AttemptsFrom(backend: nat -> X.Response, attempt: nat): Attempts
    requires attempt < MAX_RETRIES
    decreases MAX_RETRIES - attempt
  {
    match backend(attempt)
    case Returned(parts) => Attempts(Ok(parts), 1, [])
    case Raised(msg) =>
      if Contains(msg, "429") && attempt < MAX_RETRIES - 1 then
        var rest := AttemptsFrom(backend, attempt + 1);
        Attempts(rest.response, rest.calls + 1, [2 * (attempt + 1)] + rest.waits)
      else Attempts(Err(msg), 1, [])
  }

  /** `text[:n]`: Python's slice, which stops at the end of a shorter text. */
  function Take(text: string, n: nat): (r: string)
    ensures |r| <= n && |r| <= |text| && r == text[..|r|]
    ensures |text| >= n ==> |r| == n
    ensures |text| < n ==> r == text
  {
    if |text| <= n then text else text[..n]
  }

  /** The fallback dict of an undecodable reply. */
  function FallbackFields(text: string): Dict
  {
    map["has_ground_level_access" := VBool(false),
        "analysis_summary" := VStr(PARSE_FALLBACK_PREFIX + Take(text, 100) + "...")]
  }

  /**
   * What `_call_gemini_json` returns for a response text: the decoded greedy
   * `{…}` span (else the whole text), or the fallback dict on a decode error.
   */
  function DecodeAudit(text: string, parse: string -> X.Json): (j: X.Json)
    ensures !j.JsonDecodeError?
  {
    var candidate := if X.JsonSpan(text).Some? then X.JsonSpan(text).value else text;
    if parse(candidate).JsonDecodeError? then X.JsonObject(FallbackFields(text)) else parse(candidate)
  }

  /** The report built from a reply dict, each missing key taking its default. */
  function ReportFrom(d: Dict): AuditReport
  {
    AuditReport(
      Get(d, "has_ground_level_access", VBool(false)),
      Get(d, "has_concealment", VBool(false)),
      Get(d, "has_glass_proximity", VBool(false)),
      Get(d, "has_hardware_weakness", VBool(false)),
      Get(d, "vulnerabilities", VList([])),
      Get(d, "analysis_summary", VStr(DEFAULT_SUMMARY)))
  }

  /** The report of a reply that carries none of the keys read. */
  const DEFAULT_REPORT := AuditReport(VBool(false), VBool(false), VBool(false), VBool(false), VList([]), VStr(DEFAULT_SUMMARY))

  /** The message of the `AuditServiceError` that `perform_audit` raises for a failure. */
  function AuditFailed(detail: string): (m: string)
    ensures StartsWith(m, "Audit failed: ") && m[|"Audit failed: "|..] == detail
  {
    X.PrefixOfConcat("Audit failed: ", detail);
    "Audit failed: " + detail
  }

  /** The outcome of `perform_audit`: the report or the `AuditServiceError` message, and the model traffic. */
  datatype Audit = Audit(report: Result<AuditReport, string>, calls: nat, waits: seq<nat>)

  /**
   * `perform_audit`: an existing report is returned as is; a missing file,
   * an error from the model and a reply that is not a dict all surface as
   * an error message prefixed "Audit failed: ".
   */
  function PerformAuditSpec(existing: Option<AuditReport>, fileExists: bool, path: string,
                            backend: nat -> X.Response, parse: string -> X.Json): (r: Audit)
    ensures existing.Some? ==> r == Audit(Ok(existing.value), 0, [])
    ensures existing.None? && !fileExists ==> r.calls == 0 && r.report.Err?
    ensures r.report.Err? ==> StartsWith(r.report.error, "Audit failed: ")
  {
    if existing.Some? then Audit(Ok(existing.value), 0, [])
    else if !fileExists then Audit(Err(AuditFailed("Image file not found: " + path)), 0, [])
    else
      var a := AttemptsFrom(backend, 0);
      match a.response
      case Err(msg) => Audit(Err(AuditFailed("Gemini JSON call failed: " + msg)), a.calls, a.waits)
      case Ok(parts) =>
        match DecodeAudit(X.ResponseText(parts), parse)
        case JsonObject(d) => Audit(Ok(ReportFrom(d)), a.calls, a.waits)
        case _ => Audit(Err(AuditFailed("object has no attribute 'get'")), a.calls, a.waits)
  }

  /** A "429" retry moves its call and its wait into those already made. */
  lemma RetryStep(backend: nat -> X.Response, attempt: nat, calls: nat, waits: seq<nat>)
    requires attempt < MAX_RETRIES - 1
    requires backend(attempt).Raised? && Contains(backend(attempt).msg, "429")
    ensures var here := AttemptsFrom(backend, attempt);
      var rest := AttemptsFrom(backend, attempt + 1);
      Attempts(here.response, calls + here.calls, waits + here.waits) ==
        Attempts(rest.response, calls + 1 + rest.calls, waits + [2 * (attempt + 1)] + rest.waits)
  {
    var rest := AttemptsFrom(backend, attempt + 1);
    assert waits + ([2 * (attempt + 1)] + rest.waits) == waits + [2 * (attempt + 1)] + rest.waits;
  }

  /** `_call_gemini_json`: the bounded request loop, then text collection and decoding. */
  method CallGeminiJson(backend: nat -> X.Response, parse: string -> X.Json)
    returns (reply: Result<X.Json, string>, calls: nat, waits: seq<nat>)
    ensures var a := AttemptsFrom(backend, 0);
      && calls == a.calls && waits == a.waits
      && (a.response.Err? ==> reply == Err(a.response.error))
      && (a.response.Ok? ==> reply == Ok(DecodeAudit(X.ResponseText(a.response.value), parse)))
  {
    var attempt := 0;
    calls := 0;
    waits := [];
    var response: seq<X.Part> := [];
    while true
      invariant 0 <= attempt < MAX_RETRIES
      invariant calls == attempt && |waits| == attempt
      invariant var rest := AttemptsFrom(backend, attempt);
        AttemptsFrom(backend, 0) == Attempts(rest.response, calls + rest.calls, waits + rest.waits)
      decreases MAX_RETRIES - attempt
    {
      var r := backend(attempt);
      calls := calls + 1;
      if r.Returned? {
        response := r.parts;
        break;
      }
      if Contains(r.msg, "429") && attempt < MAX_RETRIES - 1 {
        RetryStep(backend, attempt, calls - 1, waits);
        waits := waits + [2 * (attempt + 1)];
        attempt := attempt + 1;
      } else {
        return Err(r.msg), calls, waits;
      }
    }
    var text := X.CollectText(response);
    reply := Ok(DecodeAudit(text, parse));
  }

  /** `perform_audit`, with the model call made by `CallGeminiJson`. */
  method PerformAudit(existing: Option<AuditReport>, fileExists: bool, path: string,
                      backend: nat -> X.Response, parse: string -> X.Json) returns (r: Audit)
    ensures r == PerformAuditSpec(existing, fileExists, path, backend, parse)
  {
    if existing.Some? {
      return Audit(Ok(existing.value), 0, []);
    }
    if !fileExists {
      return Audit(Err(AuditFailed("Image file not found: " + path)), 0, []);
    }
    var reply, calls, waits := CallGeminiJson(backend, parse);
    if reply.Err? {
      return Audit(Err(AuditFailed("Gemini JSON call failed: " + reply.error)), calls, waits);
    }
    if reply.value.JsonObject? {
      r := Audit(Ok(ReportFrom(reply.value.fields)), calls, waits);
    } else {
      r := Audit(Err(AuditFailed("object has no attribute 'get'")), calls, waits);
    }
  }

  /** Sum of a list of waits. */
  function Total(waits: seq<nat>): nat
  {
    if waits == [] then 0 else waits[0] + Total(waits[1..])
  }

  /** The most the loop can still wait from attempt `attempt` on: 2·(k+1) for each retry left. */
  function WaitBudget(attempt: nat): nat
    decreases MAX_RETRIES - attempt
  {
    if attempt >= MAX_RETRIES - 1 then 0 else 2 * (attempt + 1) + WaitBudget(attempt + 1)
  }

  /**
   * The request loop makes at most three attempts, one more than it waits;
   * its k-th wait is 2·(attempt+1) seconds, so it waits at most 2 + 4 = 6
   * seconds in total, and every wait follows a "429" error.
   */
  lemma {:induction false} AttemptsBounds(backend: nat -> X.Response, attempt: nat)
    requires attempt < MAX_RETRIES
    ensures var a := AttemptsFrom(backend, attempt);
      && 1 <= a.calls <= MAX_RETRIES - attempt
      && a.calls == |a.waits| + 1
      && (forall k :: 0 <= k < |a.waits| ==>
            a.waits[k] == 2 * (attempt + k + 1) && backend(attempt + k).Raised? && Contains(backend(attempt + k).msg, "429"))
      && Total(a.waits) <= WaitBudget(attempt)
    decreases MAX_RETRIES - attempt
  {
    var a := AttemptsFrom(backend, attempt);
    if backend(attempt).Raised? && Contains(backend(attempt).msg, "429") && attempt < MAX_RETRIES - 1 {
      AttemptsBounds(backend, attempt + 1);
      var rest := AttemptsFrom(backend, attempt + 1);
      assert a.waits == [2 * (attempt + 1)] + rest.waits;
      assert a.waits[1..] == rest.waits;
      forall k | 0 <= k < |a.waits|
        ensures a.waits[k] == 2 * (attempt + k + 1) && backend(attempt + k).Raised? && Contains(backend(attempt + k).msg, "429")
      {
        if k > 0 {
          assert a.waits[k] == rest.waits[k - 1];
        }
      }
    }
  }

  /** A whole audit call makes at most three attempts and waits at most 6 seconds. */
  lemma AuditCallBounds(backend: nat -> X.Response)
    ensures AttemptsFrom(backend, 0).calls <= 3
    ensures Total(AttemptsFrom(backend, 0).waits) <= 6
  {
    AttemptsBounds(backend, 0);
    assert WaitBudget(0) == 6;
  }

  /** An error without "429" in its text ends the loop on the spot: one attempt, no wait. */
  lemma NoRetryWithout429(backend: nat -> X.Response, attempt: nat)
    requires attempt < MAX_RETRIES
    requires backend(attempt).Raised? && !Contains(backend(attempt).msg, "429")
    ensures AttemptsFrom(backend, attempt) == Attempts(Err(backend(attempt).msg), 1, [])
  {
  }

  /**
   * An undecodable reply still yields a report: no ground-level access, the
   * other flags and the list at their defaults, and a summary quoting at
   * most the first 100 characters of the raw text.
   */
  lemma UndecodableReply(text: string, parse: string -> X.Json)
    requires parse(if X.JsonSpan(text).Some? then X.JsonSpan(text).value else text).JsonDecodeError?
    ensures DecodeAudit(text, parse).JsonObject?
    ensures var r := ReportFrom(DecodeAudit(text, parse).fields);
      && r.groundLevelAccess == VBool(false)
      && r.concealment == VBool(false) && r.vulnerabilities == VList([])
      && r.summary.VStr? && StartsWith(r.summary.s, PARSE_FALLBACK_PREFIX)
      && |r.summary.s| <= |PARSE_FALLBACK_PREFIX| + 103
  {
    var s := PARSE_FALLBACK_PREFIX + Take(text, 100) + "...";
    X.PrefixOfConcat(PARSE_FALLBACK_PREFIX, Take(text, 100) + "...");
    assert PARSE_FALLBACK_PREFIX + (Take(text, 100) + "...") == s;
  }

  /** Every key the prompt asks for is 10, 18, 25 or 31 characters long. */
  lemma NotPromptKey(k: string)
    requires |k| != 10 && |k| != 18 && |k| != 25 && |k| != 31
    ensures k !in PROMPT_KEYS
  {
  }

  /**
   * The audit prompt asks for keys none of which `perform_audit` reads, so a
   * reply that follows the prompt to the letter yields the all-default report.
   */
  lemma PromptKeysIgnored(d: Dict)
    requires d.Keys <= PROMPT_KEYS
    ensures ReportFrom(d) == DEFAULT_REPORT
  {
    NotPromptKey("has_ground_level_access");
    NotPromptKey("has_concealment");
    NotPromptKey("has_glass_proximity");
    NotPromptKey("has_hardware_weakness");
    NotPromptKey("vulnerabilities");
    NotPromptKey("analysis_summary");
  }
}
