/**
 * The visualization pipeline executor (`ScreenVisualizer`): it walks the
 * active tenant's step list once, edits the image step by step through the
 * Gemini image model, and grades the result with a JSON quality check.
 *
 * The image model is an oracle: call number `n` of a run receives
 * `backend(n)`, either a list of response parts or an exception message.
 * JSON decoding is the oracle `parse`. Images and prompts are opaque tokens;
 * the sleeps of the retry loops and the progress callback are recorded as
 * events instead of being performed.
 */
module Executor {
  import opened Common
  import opened TenantBase
  import PoolsConfig
  import WindowsConfig
  import RoofsConfig
  import ScreensConfig
  import BossConfig
  import PoolsPrompts
  import WindowsPrompts
  import RoofsPrompts
  import ScreensPrompts

  datatype Image = Image(id: nat)

  /** A prompt produced by one of the tenant prompt modules. */
  datatype PromptToken =
    | PoolsPrompt(pools: PoolsPrompts.Prompt)
    | WindowsPrompt(windows: WindowsPrompts.Prompt)
    | RoofsPrompt(roofs: RoofsPrompts.Prompt)
    | ScreensPrompt(sections: ScreensPrompts.Prompt)

  /** A part of a model response: its text and, possibly, an inline image. */
  datatype Part = Part(text: string, inline: Option<Image>)

  /** What one call to the model gives: the response parts, or the exception's text. */
  datatype Response = Returned(parts: seq<Part>) | Raised(msg: string)

  /** What `json.loads` makes of a text. */
  datatype Json = JsonObject(fields: Dict) | JsonNonObject | JsonDecodeError

  /** The observable effects of a run, in order. */
  datatype Event =
    | Progress(percent: int, message: string)
    | Sent(images: seq<Image>, prompt: PromptToken)
    | Sleep(seconds: nat)

  /**
   * What a tenant contributes to a run: its ordered step names, its step
   * descriptors and the three prompt entry points the executor calls
   * (`get_cleanup_prompt`, `get_screen_insertion_prompt`,
   * `get_quality_check_prompt(scope)`), each of which may raise.
   */
  datatype TenantView = TenantView(
    steps: seq<string>,
    configOf: string -> StepConfig,
    cleanup: PromptToken,
    insertion: (Val, Dict) -> Result<PromptToken, PyError>,
    quality: Dict -> Result<PromptToken, PyError>)

  // ---------------------------------------------------------------------
  // The image-edit call and its retry loop

  /** The outcome of an edit call, the next call number and the events it caused. */
  datatype EditCall = EditCall(value: Result<Image, string>, next: nat, events: seq<Event>)

  /** The image of the last part that carries one (later parts overwrite earlier ones). */
  function LastImage(parts: seq<Part>): Option<Image>
  {
    if parts == [] then None
    else if parts[|parts| - 1].inline.Some? then parts[|parts| - 1].inline
    else LastImage(parts[..|parts| - 1])
  }

  /**
   * The image found is that of a part after which no part carries one, and
   * none is found iff no part carries one.
   */
  lemma {:induction false} LastImageSpec(parts: seq<Part>)
    ensures LastImage(parts).Some? ==>
      exists k :: 0 <= k < |parts| && parts[k].inline == LastImage(parts) &&
        forall m :: k < m < |parts| ==> parts[m].inline.None?
    ensures LastImage(parts).None? <==> forall k :: 0 <= k < |parts| ==> parts[k].inline.None?
  {
    if parts != [] && parts[|parts| - 1].inline.None? {
      var init := parts[..|parts| - 1];
      LastImageSpec(init);
      if LastImage(init).Some? {
        var k :| 0 <= k < |init| && init[k].inline == LastImage(init) &&
          forall m :: k < m < |init| ==> init[m].inline.None?;
        assert parts[k] == init[k];
        assert forall m :: k < m < |parts| ==> parts[m].inline.None? by {
          forall m | k < m < |parts| ensures parts[m].inline.None? {
            if m < |init| {
              assert parts[m] == init[m];
            }
          }
        }
      } else {
        forall k | 0 <= k < |parts| ensures parts[k].inline.None? {
          if k < |init| {
            assert parts[k] == init[k];
          }
        }
      }
    }
  }

  const EDIT_MAX_ATTEMPTS := 4

  /** Every error of an edit call is wrapped as "Gemini call failed: <cause>". */
  const FAILURE_PREFIX := "Gemini call failed: "

  /** The error of a response that carries no image. */
  const NO_IMAGE_FAILURE := FAILURE_PREFIX + "No image data returned from AI service."

  /** The model's answer to call `i` is a "429" error, the one error that is retried. */
  predicate RateLimited(backend: nat -> Response, i: nat)
  {
    backend(i).Raised? && Contains(backend(i).msg, "429")
  }

  /** The events of `n` rate-limited attempts: each sends its request and then sleeps 10·(attempt+1) seconds. */
  function RetryEvents(images: seq<Image>, prompt: PromptToken, n: nat): seq<Event>
  {
    if n == 0 then [] else RetryEvents(images, prompt, n - 1) + [Sent(images, prompt)] + [Sleep(10 * n)]
  }

  /**
   * `_call_gemini_edit` from attempt `attempt` on: a "429" error is retried
   * after 10·(attempt+1) seconds while attempts remain; any other error, the
   * last "429", and a response without an image end the call with
   * "Gemini call failed: …".
   */
  function EditFrom(backend: nat -> Response, call: nat, attempt: nat, image: Image, prompt: PromptToken): EditCall
    requires attempt < EDIT_MAX_ATTEMPTS
    decreases EDIT_MAX_ATTEMPTS - attempt
  {
    var sent := [Sent([image], prompt)];
    match backend(call)
    case Raised(msg) =>
      if Contains(msg, "429") && attempt < EDIT_MAX_ATTEMPTS - 1 then
        var rest := EditFrom(backend, call + 1, attempt + 1, image, prompt);
        EditCall(rest.value, rest.next, sent + [Sleep(10 * (attempt + 1))] + rest.events)
      else EditCall(Err(FAILURE_PREFIX + msg), call + 1, sent)
    case Returned(parts) =>
      match LastImage(parts)
      case None => EditCall(Err(NO_IMAGE_FAILURE), call + 1, sent)
      case Some(img) => EditCall(Ok(img), call + 1, sent)
  }

  function Edit(backend: nat -> Response, call: nat, image: Image, prompt: PromptToken): EditCall
  {
    EditFrom(backend, call, 0, image, prompt)
  }

  /** The events `pre` followed by those of `c`. */
  function AfterEdit(pre: seq<Event>, c: EditCall): EditCall
  {
    EditCall(c.value, c.next, pre + c.events)
  }

  /** A "429" retry moves the request it sent and its wait into the events already made. */
  lemma EditRetryStep(pre: seq<Event>, backend: nat -> Response, c: nat, attempt: nat, image: Image, prompt: PromptToken)
    requires attempt < EDIT_MAX_ATTEMPTS - 1
    requires backend(c).Raised? && Contains(backend(c).msg, "429")
    ensures AfterEdit(pre + [Sent([image], prompt)] + [Sleep(10 * (attempt + 1))],
                      EditFrom(backend, c + 1, attempt + 1, image, prompt))
         == AfterEdit(pre, EditFrom(backend, c, attempt, image, prompt))
  {
    var rest := EditFrom(backend, c + 1, attempt + 1, image, prompt);
    var step := [Sent([image], prompt)] + [Sleep(10 * (attempt + 1))];
    assert pre + step + rest.events == pre + (step + rest.events);
  }

  /**
   * After `n` rate-limited attempts from call `call`, the edit call is the
   * events of those retries followed by the call that goes on from attempt `n`.
   */
  lemma {:induction false} EditRetries(backend: nat -> Response, call: nat, n: nat, image: Image, prompt: PromptToken)
    requires n < EDIT_MAX_ATTEMPTS
    requires forall i :: call <= i < call + n ==> RateLimited(backend, i)
    ensures AfterEdit(RetryEvents([image], prompt, n), EditFrom(backend, call + n, n, image, prompt)) ==
      Edit(backend, call, image, prompt)
  {
    if n > 0 {
      var m := n - 1;
      EditRetries(backend, call, m, image, prompt);
      assert RateLimited(backend, call + m);
      EditRetryStep(RetryEvents([image], prompt, m), backend, call + m, m, image, prompt);
      assert RetryEvents([image], prompt, n) == RetryEvents([image], prompt, m) + [Sent([image], prompt)] + [Sleep(10 * (m + 1))];
    }
  }

  /** What the attempt that ends an edit call gives: its error, or the image of the response. */
  function EditOutcome(response: Response): Result<Image, string>
  {
    match response
    case Raised(msg) => Err(FAILURE_PREFIX + msg)
    case Returned(parts) => if LastImage(parts).None? then Err(NO_IMAGE_FAILURE) else Ok(LastImage(parts).value)
  }

  /** An attempt that is not retried ends the edit call with its own request as the last event. */
  lemma EditStops(pre: seq<Event>, backend: nat -> Response, c: nat, attempt: nat, image: Image, prompt: PromptToken)
    requires attempt < EDIT_MAX_ATTEMPTS
    requires !(backend(c).Raised? && Contains(backend(c).msg, "429") && attempt < EDIT_MAX_ATTEMPTS - 1)
    ensures AfterEdit(pre, EditFrom(backend, c, attempt, image, prompt)) ==
      EditCall(EditOutcome(backend(c)), c + 1, pre + [Sent([image], prompt)])
  {
  }

  /** The scan of the response parts: every part with inline data replaces the image found so far. */
  method ScanForImage(parts: seq<Part>) returns (result: Option<Image>)
    ensures result == LastImage(parts)
  {
    result := None;
    var k := 0;
    while k < |parts|
      invariant 0 <= k <= |parts|
      invariant result == LastImage(parts[..k])
    {
      assert parts[..k + 1][..k] == parts[..k];
      if parts[k].inline.Some? {
        result := parts[k].inline;
      }
      k := k + 1;
    }
    assert parts[..k] == parts;
  }

  /**
   * The attempt loop of `_call_gemini_edit`: a "429" error is slept on and
   * retried while attempts remain; the loop stops at the first response or
   * at the error it re-raises.
   */
  method EditAttempts(backend: nat -> Response, call: nat, image: Image, prompt: PromptToken)
    returns (outcome: Response, c: nat, attempt: nat, events: seq<Event>)
    ensures attempt < EDIT_MAX_ATTEMPTS && outcome == backend(c)
    ensures !(outcome.Raised? && Contains(outcome.msg, "429") && attempt < EDIT_MAX_ATTEMPTS - 1)
    ensures AfterEdit(events, EditFrom(backend, c, attempt, image, prompt)) == Edit(backend, call, image, prompt)
  {
    attempt := 0;
    events := [];
    outcome := backend(call);
    var maxRetries := 4;
    while attempt < maxRetries - 1 && outcome.Raised? && Contains(outcome.msg, "429")
      invariant maxRetries == EDIT_MAX_ATTEMPTS
      invariant attempt < EDIT_MAX_ATTEMPTS && outcome == backend(call + attempt)
      invariant forall i :: call <= i < call + attempt ==> RateLimited(backend, i)
      invariant events == RetryEvents([image], prompt, attempt)
      decreases EDIT_MAX_ATTEMPTS - attempt
    {
      assert RateLimited(backend, call + attempt);
      events := events + [Sent([image], prompt)] + [Sleep(10 * (attempt + 1))];
      attempt := attempt + 1;
      outcome := backend(call + attempt);
    }
    c := call + attempt;
    EditRetries(backend, call, attempt, image, prompt);
  }

  /**
   * The attempt that ends an edit call: an error is wrapped, and a response
   * is scanned for its image.
   */
  method FinishEdit(outcome: Response) returns (result: Result<Image, string>)
    ensures result == EditOutcome(outcome)
  {
    match outcome
    case Raised(msg) =>
      result := Err(FAILURE_PREFIX + msg);
    case Returned(parts) =>
      var found := ScanForImage(parts);
      if found.None? {
        result := Err(NO_IMAGE_FAILURE);
      } else {
        result := Ok(found.value);
      }
  }

  /** `_call_gemini_edit`: the attempt loop, then the scan of the response parts. */
  method CallGeminiEdit(backend: nat -> Response, call: nat, image: Image, prompt: PromptToken) returns (r: EditCall)
    ensures r == Edit(backend, call, image, prompt)
  {
    var outcome, c, attempt, events := EditAttempts(backend, call, image, prompt);
    EditStops(events, backend, c, attempt, image, prompt);
    var result := FinishEdit(outcome);
    r := EditCall(result, c + 1, events + [Sent([image], prompt)]);
  }

  /** The total number of seconds slept in a list of events. */
  function SleptSeconds(events: seq<Event>): nat
  {
    if events == [] then 0
    else (if events[0].Sleep? then events[0].seconds else 0) + SleptSeconds(events[1..])
  }

  /** The number of model calls in a list of events. */
  function CallsIn(events: seq<Event>): nat
  {
    if events == [] then 0 else (if events[0].Sent? then 1 else 0) + CallsIn(events[1..])
  }

  /** The number of progress reports in a list of events. */
  function ProgressIn(events: seq<Event>): nat
  {
    if events == [] then 0 else (if events[0].Progress? then 1 else 0) + ProgressIn(events[1..])
  }

  lemma {:induction false} CountsAppend(a: seq<Event>, b: seq<Event>)
    ensures SleptSeconds(a + b) == SleptSeconds(a) + SleptSeconds(b)
    ensures CallsIn(a + b) == CallsIn(a) + CallsIn(b)
    ensures ProgressIn(a + b) == ProgressIn(a) + ProgressIn(b)
  {
    if a == [] {
      assert a + b == b;
    } else {
      assert (a + b)[0] == a[0] && (a + b)[1..] == a[1..] + b;
      CountsAppend(a[1..], b);
    }
  }

  /** A retried attempt adds one call, one wait of `seconds` and no progress report. */
  lemma RetryCounts(sent: seq<Event>, seconds: nat, rest: seq<Event>)
    requires |sent| == 1 && sent[0].Sent?
    ensures CallsIn(sent + [Sleep(seconds)] + rest) == 1 + CallsIn(rest)
    ensures ProgressIn(sent + [Sleep(seconds)] + rest) == ProgressIn(rest)
    ensures SleptSeconds(sent + [Sleep(seconds)] + rest) == seconds + SleptSeconds(rest)
  {
    CountsAppend(sent, [Sleep(seconds)]);
    CountsAppend(sent + [Sleep(seconds)], rest);
    assert CallsIn([Sleep(seconds)]) == 0 && SleptSeconds(sent) == 0 && ProgressIn(sent) == 0;
  }

  /** The most an edit from attempt `attempt` on can sleep: 10·(attempt+1) + … + 30 seconds. */
  function EditSleepBudget(attempt: nat): nat
    decreases EDIT_MAX_ATTEMPTS - attempt
  {
    if attempt >= EDIT_MAX_ATTEMPTS - 1 then 0 else 10 * (attempt + 1) + EditSleepBudget(attempt + 1)
  }

  /** Every model call among `events` sends `images` with `prompt`. */
  predicate SendsOnly(events: seq<Event>, images: seq<Image>, prompt: PromptToken)
  {
    forall k :: 0 <= k < |events| && events[k].Sent? ==> events[k].images == images && events[k].prompt == prompt
  }

  /**
   * The retry bounds of an edit from attempt `attempt`: at most 4 − attempt
   * calls, each one recorded, the sleep budget at most, and no progress
   * report.
   */
  lemma {:induction false} EditFromBounds(backend: nat -> Response, call: nat, attempt: nat, image: Image, prompt: PromptToken)
    requires attempt < EDIT_MAX_ATTEMPTS
    ensures var r := EditFrom(backend, call, attempt, image, prompt);
      && call < r.next <= call + (EDIT_MAX_ATTEMPTS - attempt)
      && CallsIn(r.events) == r.next - call
      && ProgressIn(r.events) == 0
      && SleptSeconds(r.events) <= EditSleepBudget(attempt)
    decreases EDIT_MAX_ATTEMPTS - attempt
  {
    var r := EditFrom(backend, call, attempt, image, prompt);
    var sent := [Sent([image], prompt)];
    if backend(call).Raised? && Contains(backend(call).msg, "429") && attempt < EDIT_MAX_ATTEMPTS - 1 {
      var rest := EditFrom(backend, call + 1, attempt + 1, image, prompt);
      EditFromBounds(backend, call + 1, attempt + 1, image, prompt);
      RetryCounts(sent, 10 * (attempt + 1), rest.events);
      assert r.events == sent + [Sleep(10 * (attempt + 1))] + rest.events;
    } else {
      assert r.events == sent;
    }
  }

  /** Every attempt of an edit sends the same single image and the same prompt. */
  lemma {:induction false} EditFromSends(backend: nat -> Response, call: nat, attempt: nat, image: Image, prompt: PromptToken)
    requires attempt < EDIT_MAX_ATTEMPTS
    ensures SendsOnly(EditFrom(backend, call, attempt, image, prompt).events, [image], prompt)
    decreases EDIT_MAX_ATTEMPTS - attempt
  {
    var r := EditFrom(backend, call, attempt, image, prompt);
    var sent := [Sent([image], prompt)];
    if backend(call).Raised? && Contains(backend(call).msg, "429") && attempt < EDIT_MAX_ATTEMPTS - 1 {
      var rest := EditFrom(backend, call + 1, attempt + 1, image, prompt);
      EditFromSends(backend, call + 1, attempt + 1, image, prompt);
      var pre := sent + [Sleep(10 * (attempt + 1))];
      assert r.events == pre + rest.events;
      forall k | 0 <= k < |r.events| && r.events[k].Sent?
        ensures r.events[k].images == [image] && r.events[k].prompt == prompt
      {
        if k >= |pre| {
          assert r.events[k] == rest.events[k - |pre|];
        }
      }
    }
  }

  /** A non-"429" error and a response without an image end the edit at once. */
  lemma NoRetry(backend: nat -> Response, call: nat, attempt: nat, image: Image, prompt: PromptToken)
    requires attempt < EDIT_MAX_ATTEMPTS
    ensures backend(call).Raised? && !Contains(backend(call).msg, "429") ==>
      EditFrom(backend, call, attempt, image, prompt) ==
        EditCall(Err(FAILURE_PREFIX + backend(call).msg), call + 1, [Sent([image], prompt)])
    ensures backend(call).Returned? && LastImage(backend(call).parts).None? ==>
      EditFrom(backend, call, attempt, image, prompt) ==
        EditCall(Err(NO_IMAGE_FAILURE), call + 1, [Sent([image], prompt)])
  {
  }

  /**
   * A whole edit call makes between one and four model calls, sleeps at most
   * 10 + 20 + 30 = 60 seconds and sends only the given image and prompt.
   */
  lemma EditBounds(backend: nat -> Response, call: nat, image: Image, prompt: PromptToken)
    ensures var r := Edit(backend, call, image, prompt);
      && call < r.next <= call + 4
      && CallsIn(r.events) == r.next - call
      && SleptSeconds(r.events) <= 60
      && ProgressIn(r.events) == 0
      && SendsOnly(r.events, [image], prompt)
  {
    EditFromBounds(backend, call, 0, image, prompt);
    EditFromSends(backend, call, 0, image, prompt);
  }

  /** An edit succeeds only with the image of a response that carries one. */
  lemma {:induction false} EditSuccess(backend: nat -> Response, call: nat, attempt: nat, image: Image, prompt: PromptToken)
    requires attempt < EDIT_MAX_ATTEMPTS
    ensures var r := EditFrom(backend, call, attempt, image, prompt);
      r.value.Ok? ==> (call < r.next && backend(r.next - 1).Returned? &&
        LastImage(backend(r.next - 1).parts) == Some(r.value.value))
    decreases EDIT_MAX_ATTEMPTS - attempt
  {
    if backend(call).Raised? && Contains(backend(call).msg, "429") && attempt < EDIT_MAX_ATTEMPTS - 1 {
      EditSuccess(backend, call + 1, attempt + 1, image, prompt);
    }
  }

  /** Every error of an edit reads "Gemini call failed: <cause>". */
  lemma {:induction false} EditFailure(backend: nat -> Response, call: nat, attempt: nat, image: Image, prompt: PromptToken)
    requires attempt < EDIT_MAX_ATTEMPTS
    ensures var r := EditFrom(backend, call, attempt, image, prompt);
      r.value.Err? ==> StartsWith(r.value.error, FAILURE_PREFIX)
    decreases EDIT_MAX_ATTEMPTS - attempt
  {
    if backend(call).Raised? && Contains(backend(call).msg, "429") && attempt < EDIT_MAX_ATTEMPTS - 1 {
      EditFailure(backend, call + 1, attempt + 1, image, prompt);
    } else if backend(call).Raised? {
      PrefixOfConcat(FAILURE_PREFIX, backend(call).msg);
    } else {
      PrefixOfConcat(FAILURE_PREFIX, "No image data returned from AI service.");
    }
  }

  lemma PrefixOfConcat(p: string, s: string)
    ensures StartsWith(p + s, p)
  {
    assert (p + s)[..|p|] == p;
  }

  // ---------------------------------------------------------------------
  // The JSON quality call

  /** The first position of `c` in `s`. */
  function FirstIndex(s: string, c: char): (r: Option<nat>)
    ensures r.Some? ==> r.value < |s| && s[r.value] == c && forall k :: 0 <= k < r.value ==> s[k] != c
    ensures r.None? ==> forall k :: 0 <= k < |s| ==> s[k] != c
  {
    if s == [] then None
    else if s[0] == c then Some(0)
    else match FirstIndex(s[1..], c)
      case None => None
      case Some(i) => Some(i + 1)
  }

  /** The last position of `c` in `s`. */
  function LastIndex(s: string, c: char): (r: Option<nat>)
    ensures r.Some? ==> r.value < |s| && s[r.value] == c && forall k :: r.value < k < |s| ==> s[k] != c
    ensures r.None? ==> forall k :: 0 <= k < |s| ==> s[k] != c
  {
    if s == [] then None
    else if s[|s| - 1] == c then Some(|s| - 1)
    else LastIndex(s[..|s| - 1], c)
  }

  /**
   * `re.search(r'\{.*\}', text, re.DOTALL)`: the greedy match runs from the
   * first '{' to the last '}', and exists iff some '}' follows the first '{'.
   */
  function JsonSpan(text: string): (r: Option<string>)
    ensures r.Some? ==> |r.value| >= 2 && r.value[0] == '{' && r.value[|r.value| - 1] == '}'
    ensures r.Some? ==>
      exists i, j :: 0 <= i < j < |text| && text[i] == '{' && text[j] == '}' && r.value == text[i..j + 1] &&
        (forall k :: 0 <= k < i ==> text[k] != '{') && (forall k :: j < k < |text| ==> text[k] != '}')
    ensures r.None? <==> !exists i, j :: 0 <= i < j < |text| && text[i] == '{' && text[j] == '}'
  {
    match FirstIndex(text, '{')
    case None => None
    case Some(i) =>
      match LastIndex(text, '}')
      case None => None
      case Some(j) =>
        if i < j then
          Some(text[i..j + 1])
        else None
  }

  /** What `_call_gemini_json` hands back: a dict, or a parsed value that is not one. */
  datatype Reply = Reply(fields: Dict) | NotADict

  datatype JsonCall = JsonCall(reply: Reply, next: nat, events: seq<Event>)

  const JSON_MAX_ATTEMPTS := 3

  /** The concatenated text of the response parts, in order. */
  function ResponseText(parts: seq<Part>): string
  {
    if parts == [] then "" else ResponseText(parts[..|parts| - 1]) + parts[|parts| - 1].text
  }

  /** The fallback dict of a quality check. */
  function FallbackReply(reason: string): Reply
  {
    Reply(map["score" := VNum(0.9), "reason" := VStr(reason)])
  }

  /**
   * Decoding a response text: the greedy `{…}` span when there is one, else
   * the whole text; a decode failure gives the 0.9 fallback.
   */
  function DecodeReply(text: string, parse: string -> Json): Reply
  {
    var candidate := if JsonSpan(text).Some? then JsonSpan(text).value else text;
    match parse(candidate)
    case JsonDecodeError => FallbackReply("Failed to parse AI reasoning.")
    case JsonObject(d) => Reply(d)
    case JsonNonObject => NotADict
  }

  /**
   * `_call_gemini_json` from attempt `attempt` on: "429" errors are retried
   * after 10·(attempt+1) seconds while attempts remain, and any error that
   * ends the call becomes the 0.9 fallback "Quality check failed: …".
   */
  function JsonFrom(backend: nat -> Response, call: nat, attempt: nat, images: seq<Image>, prompt: PromptToken,
                    parse: string -> Json): JsonCall
    requires attempt < JSON_MAX_ATTEMPTS
    decreases JSON_MAX_ATTEMPTS - attempt
  {
    var sent := [Sent(images, prompt)];
    match backend(call)
    case Raised(msg) =>
      if Contains(msg, "429") && attempt < JSON_MAX_ATTEMPTS - 1 then
        var rest := JsonFrom(backend, call + 1, attempt + 1, images, prompt, parse);
        JsonCall(rest.reply, rest.next, sent + [Sleep(10 * (attempt + 1))] + rest.events)
      else JsonCall(FallbackReply("Quality check failed: " + msg), call + 1, sent)
    case Returned(parts) => JsonCall(DecodeReply(ResponseText(parts), parse), call + 1, sent)
  }

  function AfterJson(pre: seq<Event>, c: JsonCall): JsonCall
  {
    JsonCall(c.reply, c.next, pre + c.events)
  }

  /** A "429" retry moves the request it sent and its wait into the events already made. */
  lemma JsonRetryStep(pre: seq<Event>, backend: nat -> Response, c: nat, attempt: nat, images: seq<Image>,
                      prompt: PromptToken, parse: string -> Json)
    requires attempt < JSON_MAX_ATTEMPTS - 1
    requires backend(c).Raised? && Contains(backend(c).msg, "429")
    ensures AfterJson(pre + [Sent(images, prompt)] + [Sleep(10 * (attempt + 1))],
                      JsonFrom(backend, c + 1, attempt + 1, images, prompt, parse))
         == AfterJson(pre, JsonFrom(backend, c, attempt, images, prompt, parse))
  {
    var rest := JsonFrom(backend, c + 1, attempt + 1, images, prompt, parse);
    var step := [Sent(images, prompt)] + [Sleep(10 * (attempt + 1))];
    assert pre + step + rest.events == pre + (step + rest.events);
  }

  /**
   * After `n` rate-limited attempts from call `call`, the JSON call is the
   * events of those retries followed by the call that goes on from attempt `n`.
   */
  lemma {:induction false} JsonRetries(backend: nat -> Response, call: nat, n: nat, images: seq<Image>,
                                       prompt: PromptToken, parse: string -> Json)
    requires n < JSON_MAX_ATTEMPTS
    requires forall i :: call <= i < call + n ==> RateLimited(backend, i)
    ensures AfterJson(RetryEvents(images, prompt, n), JsonFrom(backend, call + n, n, images, prompt, parse)) ==
      JsonFrom(backend, call, 0, images, prompt, parse)
  {
    if n > 0 {
      var m := n - 1;
      JsonRetries(backend, call, m, images, prompt, parse);
      assert RateLimited(backend, call + m);
      JsonRetryStep(RetryEvents(images, prompt, m), backend, call + m, m, images, prompt, parse);
      assert RetryEvents(images, prompt, n) == RetryEvents(images, prompt, m) + [Sent(images, prompt)] + [Sleep(10 * (m + 1))];
    }
  }

  /** What the attempt that ends a JSON call gives: the decoded reply, or the fallback for its error. */
  function JsonOutcome(response: Response, parse: string -> Json): Reply
  {
    match response
    case Raised(msg) => FallbackReply("Quality check failed: " + msg)
    case Returned(parts) => DecodeReply(ResponseText(parts), parse)
  }

  /** An attempt that is not retried ends the JSON call with its own request as the last event. */
  lemma JsonStops(pre: seq<Event>, backend: nat -> Response, c: nat, attempt: nat, images: seq<Image>,
                  prompt: PromptToken, parse: string -> Json)
    requires attempt < JSON_MAX_ATTEMPTS
    requires !(backend(c).Raised? && Contains(backend(c).msg, "429") && attempt < JSON_MAX_ATTEMPTS - 1)
    ensures AfterJson(pre, JsonFrom(backend, c, attempt, images, prompt, parse)) ==
      JsonCall(JsonOutcome(backend(c), parse), c + 1, pre + [Sent(images, prompt)])
  {
  }

  /** The collection of the response text: the parts' texts appended in order. */
  method CollectText(parts: seq<Part>) returns (text: string)
    ensures text == ResponseText(parts)
  {
    text := "";
    var k := 0;
    while k < |parts|
      invariant 0 <= k <= |parts|
      invariant text == ResponseText(parts[..k])
    {
      assert parts[..k + 1][..k] == parts[..k];
      text := text + parts[k].text;
      k := k + 1;
    }
    assert parts[..k] == parts;
  }

  /**
   * The attempt loop of `_call_gemini_json`: a "429" error is slept on and
   * retried while attempts remain; the loop stops at the first response or
   * at the error it re-raises.
   */
  method JsonAttempts(backend: nat -> Response, call: nat, images: seq<Image>, prompt: PromptToken,
                      parse: string -> Json)
    returns (outcome: Response, c: nat, attempt: nat, events: seq<Event>)
    ensures attempt < JSON_MAX_ATTEMPTS && outcome == backend(c)
    ensures !(outcome.Raised? && Contains(outcome.msg, "429") && attempt < JSON_MAX_ATTEMPTS - 1)
    ensures AfterJson(events, JsonFrom(backend, c, attempt, images, prompt, parse)) ==
      JsonFrom(backend, call, 0, images, prompt, parse)
  {
    attempt := 0;
    events := [];
    outcome := backend(call);
    var maxRetries := 3;
    while attempt < maxRetries - 1 && outcome.Raised? && Contains(outcome.msg, "429")
      invariant maxRetries == JSON_MAX_ATTEMPTS
      invariant attempt < JSON_MAX_ATTEMPTS && outcome == backend(call + attempt)
      invariant forall i :: call <= i < call + attempt ==> RateLimited(backend, i)
      invariant events == RetryEvents(images, prompt, attempt)
      decreases JSON_MAX_ATTEMPTS - attempt
    {
      assert RateLimited(backend, call + attempt);
      events := events + [Sent(images, prompt)] + [Sleep(10 * (attempt + 1))];
      attempt := attempt + 1;
      outcome := backend(call + attempt);
    }
    c := call + attempt;
    JsonRetries(backend, call, attempt, images, prompt, parse);
  }

  /**
   * The attempt that ends a JSON call: an error becomes the fallback, and a
   * response has its text collected and decoded.
   */
  method FinishJson(outcome: Response, parse: string -> Json) returns (reply: Reply)
    ensures reply == JsonOutcome(outcome, parse)
  {
    match outcome
    case Raised(msg) =>
      reply := FallbackReply("Quality check failed: " + msg);
    case Returned(parts) =>
      var text := CollectText(parts);
      reply := DecodeReply(text, parse);
  }

  /** `_call_gemini_json`: the attempt loop, the text collection and the decoding. */
  method CallGeminiJson(backend: nat -> Response, call: nat, images: seq<Image>, prompt: PromptToken,
                        parse: string -> Json) returns (r: JsonCall)
    ensures r == JsonFrom(backend, call, 0, images, prompt, parse)
  {
    var outcome, c, attempt, events := JsonAttempts(backend, call, images, prompt, parse);
    JsonStops(events, backend, c, attempt, images, prompt, parse);
    var reply := FinishJson(outcome, parse);
    r := JsonCall(reply, c + 1, events + [Sent(images, prompt)]);
  }

  /** The most a JSON call from attempt `attempt` on can sleep: 10·(attempt+1) + … + 20 seconds. */
  function JsonSleepBudget(attempt: nat): nat
    decreases JSON_MAX_ATTEMPTS - attempt
  {
    if attempt >= JSON_MAX_ATTEMPTS - 1 then 0 else 10 * (attempt + 1) + JsonSleepBudget(attempt + 1)
  }

  /**
   * A JSON call from attempt `attempt` makes at most 3 − attempt model
   * calls, each one recorded, sleeps the budget at most and reports no
   * progress.
   */
  lemma {:induction false} JsonFromBounds(backend: nat -> Response, call: nat, attempt: nat, images: seq<Image>,
                                          prompt: PromptToken, parse: string -> Json)
    requires attempt < JSON_MAX_ATTEMPTS
    ensures var r := JsonFrom(backend, call, attempt, images, prompt, parse);
      && call < r.next <= call + (JSON_MAX_ATTEMPTS - attempt)
      && CallsIn(r.events) == r.next - call
      && ProgressIn(r.events) == 0
      && SleptSeconds(r.events) <= JsonSleepBudget(attempt)
    decreases JSON_MAX_ATTEMPTS - attempt
  {
    var r := JsonFrom(backend, call, attempt, images, prompt, parse);
    var sent := [Sent(images, prompt)];
    if backend(call).Raised? && Contains(backend(call).msg, "429") && attempt < JSON_MAX_ATTEMPTS - 1 {
      var rest := JsonFrom(backend, call + 1, attempt + 1, images, prompt, parse);
      JsonFromBounds(backend, call + 1, attempt + 1, images, prompt, parse);
      RetryCounts(sent, 10 * (attempt + 1), rest.events);
      assert r.events == sent + [Sleep(10 * (attempt + 1))] + rest.events;
    } else {
      assert r.events == sent;
    }
  }

  /** Every attempt of a JSON call sends the same images and the same prompt. */
  lemma {:induction false} JsonFromSends(backend: nat -> Response, call: nat, attempt: nat, images: seq<Image>,
                                         prompt: PromptToken, parse: string -> Json)
    requires attempt < JSON_MAX_ATTEMPTS
    ensures SendsOnly(JsonFrom(backend, call, attempt, images, prompt, parse).events, images, prompt)
    decreases JSON_MAX_ATTEMPTS - attempt
  {
    var r := JsonFrom(backend, call, attempt, images, prompt, parse);
    var sent := [Sent(images, prompt)];
    if backend(call).Raised? && Contains(backend(call).msg, "429") && attempt < JSON_MAX_ATTEMPTS - 1 {
      var rest := JsonFrom(backend, call + 1, attempt + 1, images, prompt, parse);
      JsonFromSends(backend, call + 1, attempt + 1, images, prompt, parse);
      var pre := sent + [Sleep(10 * (attempt + 1))];
      assert r.events == pre + rest.events;
      forall k | 0 <= k < |r.events| && r.events[k].Sent?
        ensures r.events[k].images == images && r.events[k].prompt == prompt
      {
        if k >= |pre| {
          assert r.events[k] == rest.events[k - |pre|];
        }
      }
    }
  }

  /**
   * A whole JSON call makes one to three model calls, sleeps at most
   * 10 + 20 seconds and sends only the given images and prompt.
   */
  lemma JsonBounds(backend: nat -> Response, call: nat, images: seq<Image>, prompt: PromptToken, parse: string -> Json)
    ensures var r := JsonFrom(backend, call, 0, images, prompt, parse);
      && call < r.next <= call + 3
      && CallsIn(r.events) == r.next - call
      && SleptSeconds(r.events) <= 30
      && SendsOnly(r.events, images, prompt)
  {
    JsonFromBounds(backend, call, 0, images, prompt, parse);
    JsonFromSends(backend, call, 0, images, prompt, parse);
  }

  /**
   * A text that fails to decode, and a call that ends in an error, both give
   * score 0.9: the quality check itself never raises, except that a decoded
   * value that is not an object has no `.get`.
   */
  lemma JsonFallbacks(text: string, parse: string -> Json)
    ensures parse(if JsonSpan(text).Some? then JsonSpan(text).value else text).JsonDecodeError? ==>
      DecodeReply(text, parse) == Reply(map["score" := VNum(0.9), "reason" := VStr("Failed to parse AI reasoning.")])
    ensures DecodeReply(text, parse).NotADict? <==>
      parse(if JsonSpan(text).Some? then JsonSpan(text).value else text).JsonNonObject?
  {
  }

  // ---------------------------------------------------------------------
  // The pipeline

  /** The state `process_pipeline` keeps between steps. */
  datatype State = State(current: Image, clean: Image, score: Val, reason: Val, next: nat, events: seq<Event>)

  /** An exception leaving `process_pipeline`. */
  datatype PipelineError =
    | VisualizerError(msg: string)
    | PromptError(error: PyError)

  /** The state after some steps, and the exception that stopped the run, if any. */
  datatype Run = Run(state: State, error: Option<PipelineError>)

  /** The inputs of a run other than the oracles. */
  datatype Request = Request(original: Image, scope: Dict, options: Dict, hasCallback: bool)

  /** The progress report a step's descriptor causes: its raw weight, when there is a callback. */
  function ProgressReport(cfg: StepConfig, hasCallback: bool): seq<Event>
  {
    if hasCallback && cfg.progressWeight.Some? then
      [Progress(cfg.progressWeight.value, if cfg.description.Some? then cfg.description.value else "Processing")]
    else []
  }

  /** An insertion step runs iff it has no scope key or the scope's value for it is truthy. */
  predicate ShouldRun(cfg: StepConfig, scope: Dict)
  {
    cfg.scopeKey.None? || Truthy(GetOpt(scope, cfg.scopeKey.value))
  }

  /** `step_config.get('feature_name')`. */
  function FeatureName(cfg: StepConfig): Val
  {
    if cfg.featureName.Some? then VStr(cfg.featureName.value) else VNone
  }

  /** The state after an edit call: the call's events and call count, and on success the new image. */
  function EditedState(st: State, c: EditCall, isCleanup: bool): Run
  {
    var st2 := st.(next := c.next, events := st.events + c.events);
    if c.value.Err? then Run(st2, Some(VisualizerError(c.value.error)))
    else if isCleanup then Run(st2.(current := c.value.value, clean := c.value.value), None)
    else Run(st2.(current := c.value.value), None)
  }

  /** The state after the quality call: score and reason from the reply, with their defaults. */
  function QualityState(st: State, j: JsonCall): Run
  {
    var st2 := st.(next := j.next, events := st.events + j.events);
    match j.reply
    case NotADict => Run(st2, Some(PromptError(AttributeError("object has no attribute 'get'"))))
    case Reply(d) =>
      Run(st2.(score := Get(d, "score", VNum(0.95)), reason := Get(d, "reason", VStr("AI quality check completed."))), None)
  }

  /** One iteration of the step loop. */
  function RunStep(t: TenantView, req: Request, backend: nat -> Response, parse: string -> Json,
                   st: State, name: string): Run
  {
    var cfg := t.configOf(name);
    var st1 := st.(events := st.events + ProgressReport(cfg, req.hasCallback));
    if cfg.stepType == Some("cleanup") then
      EditedState(st1, Edit(backend, st1.next, req.original, t.cleanup), true)
    else if cfg.stepType == Some("insertion") then
      if !ShouldRun(cfg, req.scope) then Run(st1, None)
      else
        match t.insertion(FeatureName(cfg), req.options)
        case Err(e) => Run(st1, Some(PromptError(e)))
        case Ok(p) => EditedState(st1, Edit(backend, st1.next, st1.current, p), false)
    else if cfg.stepType == Some("quality_check") then
      match t.quality(req.scope)
      case Err(e) => Run(st1, Some(PromptError(e)))
      case Ok(p) => QualityState(st1, JsonFrom(backend, st1.next, 0, [st1.clean, st1.current], p, parse))
    else Run(st1, None)
  }

  /** The remaining steps, from a state; the first exception ends the run. */
  function RunSteps(t: TenantView, req: Request, backend: nat -> Response, parse: string -> Json,
                    st: State, steps: seq<string>): Run
    decreases |steps|
  {
    if steps == [] then Run(st, None)
    else
      var r := RunStep(t, req, backend, parse, st, steps[0]);
      if r.error.Some? then r else RunSteps(t, req, backend, parse, r.state, steps[1..])
  }

  /** Before the first step: both images are the original, and (10, "Analyzing") is reported. */
  function InitialState(req: Request): State
  {
    State(req.original, req.original, VNum(0.95), VStr("Pipeline completed successfully."), 0,
      if req.hasCallback then [Progress(10, "Analyzing")] else [])
  }

  /** `process_pipeline`, as a function of its inputs and the oracles. */
  function Pipeline(t: TenantView, req: Request, backend: nat -> Response, parse: string -> Json): Run
  {
    RunSteps(t, req, backend, parse, InitialState(req), t.steps)
  }

  /** The loop body of `process_pipeline` for one step. */
  method ExecuteStep(t: TenantView, req: Request, backend: nat -> Response, parse: string -> Json,
                     st: State, name: string) returns (r: Run)
    ensures r == RunStep(t, req, backend, parse, st, name)
  {
    var cfg := t.configOf(name);
    var events := st.events + ProgressReport(cfg, req.hasCallback);
    var st1 := st.(events := events);
    if cfg.stepType == Some("cleanup") {
      var c := CallGeminiEdit(backend, st1.next, req.original, t.cleanup);
      r := EditedState(st1, c, true);
    } else if cfg.stepType == Some("insertion") {
      if cfg.scopeKey.None? || Truthy(GetOpt(req.scope, cfg.scopeKey.value)) {
        var prompt := t.insertion(FeatureName(cfg), req.options);
        if prompt.Err? {
          return Run(st1, Some(PromptError(prompt.error)));
        }
        var c := CallGeminiEdit(backend, st1.next, st1.current, prompt.value);
        r := EditedState(st1, c, false);
      } else {
        r := Run(st1, None);
      }
    } else if cfg.stepType == Some("quality_check") {
      var prompt := t.quality(req.scope);
      if prompt.Err? {
        return Run(st1, Some(PromptError(prompt.error)));
      }
      var j := CallGeminiJson(backend, st1.next, [st1.clean, st1.current], prompt.value, parse);
      r := QualityState(st1, j);
    } else {
      r := Run(st1, None);
    }
  }

  /**
   * `process_pipeline`: the step loop. It returns the clean image, the final
   * image, the score and the reason, or the exception that ended the run,
   * together with the events the run caused either way.
   */
  method ProcessPipeline(t: TenantView, req: Request, backend: nat -> Response, parse: string -> Json)
    returns (r: Run)
    ensures r == Pipeline(t, req, backend, parse)
  {
    var st := InitialState(req);
    var i := 0;
    while i < |t.steps|
      invariant 0 <= i <= |t.steps|
      invariant RunSteps(t, req, backend, parse, st, t.steps[i..]) == Pipeline(t, req, backend, parse)
    {
      assert t.steps[i..][1..] == t.steps[i + 1..];
      var step := ExecuteStep(t, req, backend, parse, st, t.steps[i]);
      if step.error.Some? {
        return step;
      }
      st := step.state;
      i := i + 1;
    }
    return Run(st, None);
  }

  // ---------------------------------------------------------------------
  // Properties of a step

  /** The events of the state before a step, followed by the step's progress report. */
  function ReportedEvents(t: TenantView, req: Request, st: State, name: string): seq<Event>
  {
    st.events + ProgressReport(t.configOf(name), req.hasCallback)
  }

  /**
   * A skipped insertion step reports its progress and changes nothing else:
   * no model call, same images.
   */
  lemma SkippedInsertion(t: TenantView, req: Request, backend: nat -> Response, parse: string -> Json,
                         st: State, name: string)
    requires t.configOf(name).stepType == Some("insertion") && !ShouldRun(t.configOf(name), req.scope)
    ensures RunStep(t, req, backend, parse, st, name) == Run(st.(events := ReportedEvents(t, req, st, name)), None)
  {
  }

  /**
   * A step whose type is none of cleanup, insertion and quality_check (a
   * 'reference_insertion' step, or the empty descriptor of an unknown name)
   * is silently ignored.
   */
  lemma IgnoredStep(t: TenantView, req: Request, backend: nat -> Response, parse: string -> Json,
                    st: State, name: string)
    requires t.configOf(name).stepType !in {Some("cleanup"), Some("insertion"), Some("quality_check")}
    ensures RunStep(t, req, backend, parse, st, name) == Run(st.(events := ReportedEvents(t, req, st, name)), None)
  {
  }

  /**
   * Cleanup edits the original image, not the current one, with the cleanup
   * prompt, and on success both the clean and the current image become its
   * result.
   */
  lemma CleanupStep(t: TenantView, req: Request, backend: nat -> Response, parse: string -> Json,
                    st: State, name: string)
    requires t.configOf(name).stepType == Some("cleanup")
    ensures var r := RunStep(t, req, backend, parse, st, name);
      r.error.None? ==> r.state.clean == r.state.current
    ensures var r := RunStep(t, req, backend, parse, st, name);
      var pre := ReportedEvents(t, req, st, name);
      |pre| <= |r.state.events| && SendsOnly(r.state.events[|pre|..], [req.original], t.cleanup)
  {
    var pre := ReportedEvents(t, req, st, name);
    var c := Edit(backend, st.next, req.original, t.cleanup);
    EditFromSends(backend, st.next, 0, req.original, t.cleanup);
    assert RunStep(t, req, backend, parse, st, name).state.events == pre + c.events;
    assert (pre + c.events)[|pre|..] == c.events;
  }

  /**
   * The quality check never changes either image; it sends the clean and
   * the current image, and a reply without 'score' or 'reason' gives 0.95
   * and 'AI quality check completed.'.
   */
  lemma QualityStep(t: TenantView, req: Request, backend: nat -> Response, parse: string -> Json,
                    st: State, name: string)
    requires t.configOf(name).stepType == Some("quality_check")
    ensures var r := RunStep(t, req, backend, parse, st, name);
      r.state.current == st.current && r.state.clean == st.clean
    ensures var r := RunStep(t, req, backend, parse, st, name);
      var pre := ReportedEvents(t, req, st, name);
      t.quality(req.scope).Ok? ==>
        (|pre| <= |r.state.events| && SendsOnly(r.state.events[|pre|..], [st.clean, st.current], t.quality(req.scope).value))
    ensures var r := RunStep(t, req, backend, parse, st, name);
      t.quality(req.scope).Ok? &&
      JsonFrom(backend, st.next, 0, [st.clean, st.current], t.quality(req.scope).value, parse).reply == Reply(map[]) ==>
        (r.error.None? && r.state.score == VNum(0.95) && r.state.reason == VStr("AI quality check completed."))
  {
    var pre := ReportedEvents(t, req, st, name);
    var r := RunStep(t, req, backend, parse, st, name);
    if t.quality(req.scope).Ok? {
      var p := t.quality(req.scope).value;
      var j := JsonFrom(backend, st.next, 0, [st.clean, st.current], p, parse);
      JsonFromSends(backend, st.next, 0, [st.clean, st.current], p, parse);
      assert r.state.events == pre + j.events;
      assert (pre + j.events)[|pre|..] == j.events;
    }
  }

  // ---------------------------------------------------------------------
  // Properties of a whole run

  /** `a` is a prefix of `b`. */
  predicate IsPrefix(a: seq<Event>, b: seq<Event>)
  {
    |a| <= |b| && b[..|a|] == a
  }

  /** The progress reports of a list of steps, in order: each step's raw weight. */
  function ProgressReports(configOf: string -> StepConfig, steps: seq<string>, hasCallback: bool): seq<Event>
  {
    if steps == [] then [] else ProgressReport(configOf(steps[0]), hasCallback) + ProgressReports(configOf, steps[1..], hasCallback)
  }

  /** The progress reports among a list of events. */
  function ProgressOnly(events: seq<Event>): seq<Event>
  {
    if events == [] then []
    else (if events[0].Progress? then [events[0]] else []) + ProgressOnly(events[1..])
  }

  lemma {:induction false} ProgressOnlyAppend(a: seq<Event>, b: seq<Event>)
    ensures ProgressOnly(a + b) == ProgressOnly(a) + ProgressOnly(b)
  {
    if a == [] {
      assert a + b == b;
    } else {
      assert (a + b)[0] == a[0] && (a + b)[1..] == a[1..] + b;
      ProgressOnlyAppend(a[1..], b);
    }
  }

  lemma {:induction false} ProgressOnlyNone(events: seq<Event>)
    requires ProgressIn(events) == 0
    ensures ProgressOnly(events) == []
  {
    if events != [] {
      ProgressOnlyNone(events[1..]);
    }
  }

  /** A step's report is a progress report and no call. */
  lemma ReportIsProgress(cfg: StepConfig, hasCallback: bool)
    ensures CallsIn(ProgressReport(cfg, hasCallback)) == 0
    ensures ProgressOnly(ProgressReport(cfg, hasCallback)) == ProgressReport(cfg, hasCallback)
  {
    var rep := ProgressReport(cfg, hasCallback);
    if rep != [] {
      assert rep[1..] == [];
    }
  }

  /** The events a step adds after the previous ones: its report, then calls and sleeps. */
  lemma StepAppends(pre: seq<Event>, rep: seq<Event>, rest: seq<Event>)
    requires ProgressIn(rest) == 0 && CallsIn(rep) == 0 && ProgressOnly(rep) == rep
    ensures IsPrefix(pre, pre + rep + rest)
    ensures CallsIn(pre + rep + rest) == CallsIn(pre) + CallsIn(rest)
    ensures ProgressOnly(pre + rep + rest) == ProgressOnly(pre) + rep
  {
    assert (pre + rep + rest)[..|pre|] == pre;
    CountsAppend(pre, rep);
    CountsAppend(pre + rep, rest);
    ProgressOnlyAppend(pre, rep);
    ProgressOnlyAppend(pre + rep, rest);
    ProgressOnlyNone(rest);
  }

  /**
   * A step appends its own progress report and then only model calls and
   * sleeps: the previous events stay a prefix, the new calls are counted by
   * the call number, at most four of them, and the progress reports grow by
   * exactly the step's report.
   */
  lemma StepEvents(t: TenantView, req: Request, backend: nat -> Response, parse: string -> Json,
                   st: State, name: string)
    ensures var r := RunStep(t, req, backend, parse, st, name);
      && IsPrefix(st.events, r.state.events)
      && CallsIn(r.state.events) == CallsIn(st.events) + (r.state.next - st.next)
      && ProgressOnly(r.state.events) == ProgressOnly(st.events) + ProgressReport(t.configOf(name), req.hasCallback)
      && st.next <= r.state.next <= st.next + 4
  {
    var cfg := t.configOf(name);
    var rep := ProgressReport(cfg, req.hasCallback);
    ReportIsProgress(cfg, req.hasCallback);
    var st1 := st.(events := st.events + rep);
    var r := RunStep(t, req, backend, parse, st, name);
    if cfg.stepType == Some("cleanup") {
      EditFromBounds(backend, st1.next, 0, req.original, t.cleanup);
      var c := Edit(backend, st1.next, req.original, t.cleanup);
      assert r == EditedState(st1, c, true);
      StepFacts(st, rep, c.events, r.state);
    } else if cfg.stepType == Some("insertion") && ShouldRun(cfg, req.scope) && t.insertion(FeatureName(cfg), req.options).Ok? {
      var p := t.insertion(FeatureName(cfg), req.options).value;
      EditFromBounds(backend, st1.next, 0, st1.current, p);
      var c := Edit(backend, st1.next, st1.current, p);
      assert r == EditedState(st1, c, false);
      StepFacts(st, rep, c.events, r.state);
    } else if cfg.stepType == Some("quality_check") && t.quality(req.scope).Ok? {
      var p := t.quality(req.scope).value;
      JsonFromBounds(backend, st1.next, 0, [st1.clean, st1.current], p, parse);
      var j := JsonFrom(backend, st1.next, 0, [st1.clean, st1.current], p, parse);
      assert r == QualityState(st1, j);
      StepFacts(st, rep, j.events, r.state);
    } else {
      assert r.state == st1;
      StepFacts(st, rep, [], r.state);
    }
  }

  /** The facts of StepEvents, once the step's appended events are known. */
  lemma StepFacts(pre: State, rep: seq<Event>, tail: seq<Event>, post: State)
    requires post.events == pre.events + rep + tail
    requires ProgressIn(tail) == 0 && CallsIn(rep) == 0 && ProgressOnly(rep) == rep
    requires CallsIn(tail) == post.next - pre.next && pre.next <= post.next <= pre.next + 4
    ensures IsPrefix(pre.events, post.events)
    ensures CallsIn(post.events) == CallsIn(pre.events) + (post.next - pre.next)
    ensures ProgressOnly(post.events) == ProgressOnly(pre.events) + rep
  {
    StepAppends(pre.events, rep, tail);
  }

  /**
   * Running steps only appends events, every call is counted by the call
   * number, and there are at most four calls per step.
   */
  lemma {:induction false} RunStepsCalls(t: TenantView, req: Request, backend: nat -> Response, parse: string -> Json,
                                         st: State, steps: seq<string>)
    ensures var r := RunSteps(t, req, backend, parse, st, steps);
      && IsPrefix(st.events, r.state.events)
      && CallsIn(r.state.events) == CallsIn(st.events) + (r.state.next - st.next)
      && st.next <= r.state.next <= st.next + 4 * |steps|
    decreases |steps|
  {
    if steps != [] {
      var r1 := RunStep(t, req, backend, parse, st, steps[0]);
      StepEvents(t, req, backend, parse, st, steps[0]);
      if r1.error.None? {
        RunStepsCalls(t, req, backend, parse, r1.state, steps[1..]);
        var r := RunSteps(t, req, backend, parse, r1.state, steps[1..]);
        assert r.state.events[..|r1.state.events|][..|st.events|] == r.state.events[..|st.events|];
      }
    }
  }

  /** Progress reports added in two stretches are added in sequence. */
  lemma ProgressCompose(pre: seq<Event>, mid: seq<Event>, post: seq<Event>, here: seq<Event>, later: seq<Event>)
    requires ProgressOnly(mid) == ProgressOnly(pre) + here
    requires ProgressOnly(post) == ProgressOnly(mid) + later
    ensures ProgressOnly(post) == ProgressOnly(pre) + (here + later)
  {
    assert ProgressOnly(pre) + here + later == ProgressOnly(pre) + (here + later);
  }

  /**
   * A run that completes has reported, among its events, exactly one
   * progress value per step with a weight (the raw weight, no
   * normalisation), in step order.
   */
  lemma {:induction false} RunStepsProgress(t: TenantView, req: Request, backend: nat -> Response, parse: string -> Json,
                                            st: State, steps: seq<string>)
    ensures var r := RunSteps(t, req, backend, parse, st, steps);
      r.error.None? ==>
        ProgressOnly(r.state.events) == ProgressOnly(st.events) + ProgressReports(t.configOf, steps, req.hasCallback)
    decreases |steps|
  {
    if steps != [] {
      var r1 := RunStep(t, req, backend, parse, st, steps[0]);
      StepEvents(t, req, backend, parse, st, steps[0]);
      if r1.error.None? {
        RunStepsProgress(t, req, backend, parse, r1.state, steps[1..]);
        var r := RunSteps(t, req, backend, parse, r1.state, steps[1..]);
        if r.error.None? {
          ProgressCompose(st.events, r1.state.events, r.state.events,
            ProgressReport(t.configOf(steps[0]), req.hasCallback), ProgressReports(t.configOf, steps[1..], req.hasCallback));
        }
      }
    }
  }

  /**
   * A completed run's progress reports are (10, "Analyzing") followed by each
   * step's raw weight in pipeline order; without a callback there are none.
   * Any run, complete or not, starts with (10, "Analyzing") when there is a
   * callback and makes at most four model calls per step.
   */
  lemma PipelineProgress(t: TenantView, req: Request, backend: nat -> Response, parse: string -> Json)
    ensures var r := Pipeline(t, req, backend, parse);
      r.error.None? ==>
        ProgressOnly(r.state.events) ==
          (if req.hasCallback then [Progress(10, "Analyzing")] else []) + ProgressReports(t.configOf, t.steps, req.hasCallback)
    ensures var r := Pipeline(t, req, backend, parse);
      req.hasCallback ==> (|r.state.events| > 0 && r.state.events[0] == Progress(10, "Analyzing"))
    ensures var r := Pipeline(t, req, backend, parse);
      r.state.next <= 4 * |t.steps| && CallsIn(r.state.events) == r.state.next
  {
    var st := InitialState(req);
    RunStepsCalls(t, req, backend, parse, st, t.steps);
    RunStepsProgress(t, req, backend, parse, st, t.steps);
    var r := Pipeline(t, req, backend, parse);
    if req.hasCallback {
      assert ProgressOnly(st.events) == [Progress(10, "Analyzing")];
      assert r.state.events[..1] == st.events;
      assert r.state.events[0] == r.state.events[..1][0];
    }
  }

  /** With no callback there is never a progress report, whatever the steps. */
  lemma {:induction false} NoCallbackNoProgress(configOf: string -> StepConfig, steps: seq<string>)
    ensures ProgressReports(configOf, steps, false) == []
  {
    if steps != [] {
      NoCallbackNoProgress(configOf, steps[1..]);
    }
  }

  /** No step of the list is a cleanup step. */
  predicate NoCleanup(configOf: string -> StepConfig, steps: seq<string>)
  {
    forall k :: 0 <= k < |steps| ==> configOf(steps[k]).stepType != Some("cleanup")
  }

  /** Only a cleanup step changes the clean image. */
  lemma {:induction false} CleanOnlyFromCleanup(t: TenantView, req: Request, backend: nat -> Response, parse: string -> Json,
                                                st: State, steps: seq<string>)
    requires NoCleanup(t.configOf, steps)
    ensures RunSteps(t, req, backend, parse, st, steps).state.clean == st.clean
    decreases |steps|
  {
    if steps != [] {
      var r1 := RunStep(t, req, backend, parse, st, steps[0]);
      assert r1.state.clean == st.clean;
      if r1.error.None? {
        assert NoCleanup(t.configOf, steps[1..]) by {
          forall k | 0 <= k < |steps[1..]| ensures t.configOf(steps[1..][k]).stepType != Some("cleanup") {
            assert steps[1..][k] == steps[k + 1];
          }
        }
        CleanOnlyFromCleanup(t, req, backend, parse, r1.state, steps[1..]);
      }
    }
  }

  /** A tenant without a cleanup step grades against the original image. */
  lemma NoCleanupKeepsOriginal(t: TenantView, req: Request, backend: nat -> Response, parse: string -> Json)
    requires NoCleanup(t.configOf, t.steps)
    ensures Pipeline(t, req, backend, parse).state.clean == req.original
  {
    CleanOnlyFromCleanup(t, req, backend, parse, InitialState(req), t.steps);
  }

  // ---------------------------------------------------------------------
  // The five tenants as the executor sees them

  function PoolsInsertion(featureName: Val, options: Dict): Result<PromptToken, PyError>
  {
    match PoolsPrompts.ScreenInsertionPrompt(featureName, options)
    case Ok(p) => Ok(PoolsPrompt(p))
    case Err(e) => Err(e)
  }

  function PoolsQuality(scope: Dict): Result<PromptToken, PyError>
  {
    Ok(PoolsPrompt(PoolsPrompts.QualityCheckPrompt(Some(scope))))
  }

  function PoolsView(): TenantView
  {
    TenantView(PoolsConfig.PIPELINE_STEPS, PoolsConfig.StepConfigOf, PoolsPrompt(PoolsPrompts.CleanupPrompt()),
      PoolsInsertion, PoolsQuality)
  }

  function WindowsInsertion(featureName: Val, options: Dict): Result<PromptToken, PyError>
  {
    Ok(WindowsPrompt(WindowsPrompts.ScreenInsertionPrompt(featureName, options)))
  }

  function WindowsQuality(scope: Dict): Result<PromptToken, PyError>
  {
    Ok(WindowsPrompt(WindowsPrompts.QualityCheckPrompt(Some(scope))))
  }

  function WindowsView(): TenantView
  {
    TenantView(WindowsConfig.PIPELINE_STEPS, WindowsConfig.StepConfigOf, WindowsPrompt(WindowsPrompts.CleanupPrompt()),
      WindowsInsertion, WindowsQuality)
  }

  /** The roofs prompts module has no `get_screen_insertion_prompt`. */
  function RoofsInsertion(featureName: Val, options: Dict): Result<PromptToken, PyError>
  {
    if RoofsPrompts.DEFINES_SCREEN_INSERTION_PROMPT then Ok(RoofsPrompt(RoofsPrompts.QualityCheckPrompt()))
    else Err(AttributeError("module has no attribute 'get_screen_insertion_prompt'"))
  }

  /** Roofs' `get_quality_check_prompt()` takes no argument, and the executor passes the scope. */
  function RoofsQuality(scope: Dict): Result<PromptToken, PyError>
  {
    if RoofsPrompts.QUALITY_CHECK_ARITY == 1 then Ok(RoofsPrompt(RoofsPrompts.QualityCheckPrompt()))
    else Err(TypeError("get_quality_check_prompt() takes 0 positional arguments but 1 was given"))
  }

  function RoofsView(): TenantView
  {
    TenantView(RoofsConfig.PIPELINE_STEPS, RoofsConfig.StepConfigOf, RoofsPrompt(RoofsPrompts.CleanupPrompt()),
      RoofsInsertion, RoofsQuality)
  }

  function ScreensInsertion(featureName: Val, options: Dict): Result<PromptToken, PyError>
  {
    match ScreensPrompts.InsertionSections(featureName, options, false)
    case Ok(p) => Ok(ScreensPrompt(p))
    case Err(e) => Err(e)
  }

  function ScreensQuality(scope: Dict): Result<PromptToken, PyError>
  {
    Ok(ScreensPrompt(ScreensPrompts.QualitySections(Some(scope))))
  }

  function ScreensView(): TenantView
  {
    TenantView(ScreensConfig.PIPELINE_STEPS, ScreensConfig.StepConfigOf, ScreensPrompt(ScreensPrompts.CleanupPrompt()),
      ScreensInsertion, ScreensQuality)
  }

  function BossInsertion(featureName: Val, options: Dict): Result<PromptToken, PyError>
  {
    match ScreensPrompts.InsertionSections(featureName, options, true)
    case Ok(p) => Ok(ScreensPrompt(p))
    case Err(e) => Err(e)
  }

  function BossView(): TenantView
  {
    TenantView(BossConfig.PIPELINE_STEPS, BossConfig.StepConfigOf, ScreensPrompt([ScreensPrompts.CleanupText(true)]),
      BossInsertion, ScreensQuality)
  }

  /**
   * The roofs pipeline can never complete: the roof-material step always
   * runs and has no insertion prompt to call, so a run ends with the cleanup
   * edit's error or with AttributeError right after it.
   */
  lemma RoofsPipelineFails(req: Request, backend: nat -> Response, parse: string -> Json)
    ensures Pipeline(RoofsView(), req, backend, parse).error.Some?
    ensures var r := Pipeline(RoofsView(), req, backend, parse);
      r.error.value.PromptError? ==> r.error.value.error.AttributeError?
  {
    var t := RoofsView();
    var st := InitialState(req);
    assert t.steps == ["cleanup", "roof_material", "solar_panels", "gutters_trim", "quality_check"];
    RoofsConfig.StepKinds();
    var r1 := RunStep(t, req, backend, parse, st, "cleanup");
    CleanupErrors(t, req, backend, parse, st, "cleanup");
    assert t.steps[1..] == ["roof_material", "solar_panels", "gutters_trim", "quality_check"];
    if r1.error.None? {
      RoofMaterialFails(req, backend, parse, r1.state);
      assert Pipeline(t, req, backend, parse) == RunStep(t, req, backend, parse, r1.state, "roof_material");
    } else {
      assert Pipeline(t, req, backend, parse) == r1;
    }
  }

  /** A cleanup step can only fail with the edit call's error. */
  lemma CleanupErrors(t: TenantView, req: Request, backend: nat -> Response, parse: string -> Json, st: State, name: string)
    requires t.configOf(name).stepType == Some("cleanup")
    ensures var r := RunStep(t, req, backend, parse, st, name);
      r.error.Some? ==> r.error.value.VisualizerError?
  {
  }

  /** Whatever the state, the roofs roof-material step fails for want of an insertion prompt. */
  lemma RoofMaterialFails(req: Request, backend: nat -> Response, parse: string -> Json, st: State)
    ensures RunStep(RoofsView(), req, backend, parse, st, "roof_material").error ==
      Some(PromptError(AttributeError("module has no attribute 'get_screen_insertion_prompt'")))
  {
    RoofsConfig.StepKinds();
    RoofsConfig.StepGating();
  }

  /**
   * Roofs' solar and gutter steps are gated on option keys whose values are
   * option ids: the id 'none' is a non-empty string, so it does not skip.
   */
  lemma RoofsNoneDoesNotSkip()
    ensures ShouldRun(RoofsConfig.StepConfigOf("solar_panels"), map["solar_option" := VStr("none")])
    ensures ShouldRun(RoofsConfig.StepConfigOf("gutters_trim"), map["gutter_option" := VStr("none")])
  {
  }

  /**
   * For windows every insertion step, whatever its feature, sends the
   * window-frame prompt.
   */
  lemma WindowsInsertionsAreFrames(featureName: Val, options: Dict)
    ensures WindowsInsertion(featureName, options).Ok?
    ensures WindowsInsertion(featureName, options).value.windows.WindowFrame?
  {
  }
}
