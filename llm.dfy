/** The generative analyzer: bounded prompt inputs, the retrying call to the
    generative service, and the decoding of its reply with a fail-closed fallback. */
module Llm {
  import opened Wrappers
  import opened Strings

  const MaxRetries: nat := 3
  const InitialDelay: nat := 2000
  const MaxDelay: nat := 128000

  /** Truncation limits for the prompt inputs, in characters. */
  const HomeLimit: nat := 15000
  const SecondaryLimit: nat := 5000

  // ---------------------------------------------------------------------------
  // Retry classification

  /** `isRetryableError`: the message names a 429/503 status or the rate-limit
      code (case-sensitive), or mentions quota, rate limit or overload in any case. */
  predicate IsRetryableError(message: string)
  {
    || Contains(message, "429")
    || Contains(message, "503")
    || Contains(message, "RATELIMIT_EXCEEDED")
    || Contains(Lower(message), "quota")
    || Contains(Lower(message), "rate limit")
    || Contains(Lower(message), "overloaded")
  }

  /** A 429 or 503 status, or the RATELIMIT_EXCEEDED code in upper case,
      anywhere in the message makes it retryable. */
  lemma RetryableStatusCodes(pre: string, code: string, post: string)
    requires code == "429" || code == "503" || code == "RATELIMIT_EXCEEDED"
    ensures IsRetryableError(pre + code + post)
  {
    OccursBetween(pre, code, post);
  }

  /** Quota and overload are recognised in any letter case. */
  lemma RetryableAnyCase(pre: string, word: string, post: string)
    requires Lower(word) == "quota" || Lower(word) == "overloaded"
    ensures IsRetryableError(pre + word + post)
  {
    LowerConcat(pre + word, post);
    LowerConcat(pre, word);
    OccursBetween(Lower(pre), Lower(word), Lower(post));
  }

  /** A message without the digits 4 and 5, without an upper-case X, and whose
      lower-case form lacks q, r and o, is not retryable. */
  lemma NotRetryableWithout(m: string)
    requires '4' !in m && '5' !in m && 'X' !in m
    requires 'q' !in Lower(m) && 'r' !in Lower(m) && 'o' !in Lower(m)
    ensures !IsRetryableError(m)
  {
    MissingCharNotContained(m, "429", 0);
    MissingCharNotContained(m, "503", 0);
    MissingCharNotContained(m, "RATELIMIT_EXCEEDED", 11);
    MissingCharNotContained(Lower(m), "quota", 0);
    MissingCharNotContained(Lower(m), "rate limit", 0);
    MissingCharNotContained(Lower(m), "overloaded", 0);
  }

  /** An authentication error is not retried. */
  lemma NotRetryableExample()
    ensures !IsRetryableError("invalid API key")
  {
    var m := "invalid API key";
    InvalidKeyLetters();
    LowerAvoids(m, 'q');
    LowerAvoids(m, 'r');
    LowerAvoids(m, 'o');
    NotRetryableWithout(m);
  }

  /** The characters the classifier looks for, absent from "invalid API key". */
  lemma InvalidKeyLetters()
    ensures var m := "invalid API key";
            '4' !in m && '5' !in m && 'X' !in m && 'q' !in m && 'Q' !in m && 'r' !in m && 'R' !in m
            && 'o' !in m && 'O' !in m
  {
    InvalidKeyNoDigits();
    InvalidKeyNoQ();
    InvalidKeyNoR();
    InvalidKeyNoO();
  }

  // Membership facts about one literal string, split a few characters per
  // lemma: each is checked by unfolding the literal, which is cheap for two or
  // three characters and expensive for all nine at once.

  lemma InvalidKeyNoDigits()
    ensures '4' !in "invalid API key" && '5' !in "invalid API key" && 'X' !in "invalid API key"
  {
  }

  lemma InvalidKeyNoQ()
    ensures 'q' !in "invalid API key" && 'Q' !in "invalid API key"
  {
  }

  lemma InvalidKeyNoR()
    ensures 'r' !in "invalid API key" && 'R' !in "invalid API key"
  {
  }

  lemma InvalidKeyNoO()
    ensures 'o' !in "invalid API key" && 'O' !in "invalid API key"
  {
  }

  // ---------------------------------------------------------------------------
  // The service and the retry loop

  /** The prompt, as the six input texts it is built from (its wording is not
      modelled); a missing input is the empty text and is left out of the prompt. */
  datatype Prompt = Prompt(home: string, contact: string, privacy: string, policy: string,
                           techStack: string, formsDetected: string)

  /** What one call of the generative service does: reply (possibly without any
      text) or throw an error with a message. */
  datatype Response = Replied(text: Option<string>) | Threw(message: string)

  /** The service as an oracle: the outcome of the call with a prompt at a given
      attempt number (0, 1, 2). */
  type Service = (Prompt, nat) -> Response

  /** One attempt ends the loop: a reply, or an error that is not retryable. */
  predicate Stops(r: Response)
  {
    r.Replied? || !IsRetryableError(r.message)
  }

  function Pow2(n: nat): (p: nat)
    ensures p >= 1
  {
    if n == 0 then 1 else 2 * Pow2(n - 1)
  }

  function Min(a: nat, b: nat): nat
  {
    if a <= b then a else b
  }

  /** The delay slept after the failed attempt `i`: 2000 ms doubled `i` times,
      capped at 128000 ms. */
  function Backoff(i: nat): (d: nat)
    ensures InitialDelay <= d <= MaxDelay
  {
    Min(InitialDelay * Pow2(i), MaxDelay)
  }

  /** The delays of the first `n` failed attempts. */
  function Backoffs(n: nat): (ds: seq<nat>)
    ensures |ds| == n && forall i :: 0 <= i < n ==> ds[i] == Backoff(i)
  {
    seq(n, i requires 0 <= i => Backoff(i))
  }

  /** Doubling the previous delay with the cap gives the next one. */
  lemma BackoffStep(i: nat)
    ensures Backoff(i + 1) == Min(Backoff(i) * 2, MaxDelay)
  {
    assert Pow2(i + 1) == 2 * Pow2(i);
  }

  /** The first attempt at or after `from` that stops the loop, or `MaxRetries`
      when every remaining attempt fails retryably. */
  function FirstStop(prompt: Prompt, service: Service, from: nat): (k: nat)
    requires from <= MaxRetries
    ensures from <= k <= MaxRetries
    ensures k < MaxRetries ==> Stops(service(prompt, k))
    ensures forall j :: from <= j < k ==> !Stops(service(prompt, j))
    decreases MaxRetries - from
  {
    if from == MaxRetries then MaxRetries
    else if Stops(service(prompt, from)) then from
    else FirstStop(prompt, service, from + 1)
  }

  /** The observable run of `generateWithRetry`: what it returns or throws, the
      sleeps it schedules, in order, and how many calls it makes. */
  datatype RetryRun = RetryRun(result: Result<string>, slept: seq<nat>, calls: nat)

  /** The run as a function of the service's behaviour: the loop ends at the
      first attempt that replies or fails for good; if all three attempts fail
      retryably, it throws the last error. Every failed retryable attempt,
      the last one included, is followed by its backoff sleep. */
  function Generation(prompt: Prompt, service: Service): RetryRun
  {
    var k := FirstStop(prompt, service, 0);
    if k < MaxRetries then
      match service(prompt, k)
      case Replied(text) => RetryRun(Success(text.GetOr("")), Backoffs(k), k + 1)
      case Threw(message) => RetryRun(Failure(message), Backoffs(k), k + 1)
    else
      RetryRun(Failure(service(prompt, MaxRetries - 1).message), Backoffs(MaxRetries), MaxRetries)
  }

  /** `generateWithRetry`: up to three calls with exponential backoff between
      them. `slept` is the trace of the sleeps it performs. */
  method GenerateWithRetry(prompt: Prompt, service: Service)
    returns (result: Result<string>, slept: seq<nat>, calls: nat)
    ensures RetryRun(result, slept, calls) == Generation(prompt, service)
  {
    var lastError: Option<string> := None;
    var delay := InitialDelay;
    slept, calls := [], 0;
    var attempt := 0;
    while attempt < MaxRetries
      invariant attempt <= MaxRetries && calls == attempt
      invariant delay == Backoff(attempt) && slept == Backoffs(attempt)
      invariant forall j :: 0 <= j < attempt ==> !Stops(service(prompt, j))
      invariant attempt > 0 ==> lastError == Some(service(prompt, attempt - 1).message)
    {
      var response := service(prompt, attempt);
      calls := calls + 1;
      if response.Replied? {
        assert FirstStop(prompt, service, 0) == attempt;
        return Success(response.text.GetOr("")), slept, calls;
      }
      lastError := Some(response.message);
      if !IsRetryableError(response.message) {
        assert FirstStop(prompt, service, 0) == attempt;
        return Failure(response.message), slept, calls;
      }
      slept := slept + [delay];
      BackoffStep(attempt);
      delay := Min(delay * 2, MaxDelay);
      attempt := attempt + 1;
    }
    assert FirstStop(prompt, service, 0) == MaxRetries;
    result := Failure(lastError.GetOr("Max retries exceeded"));
  }

  /** The retry loop makes between one and three calls, sleeps after every call
      but a successful or non-retryable one, and never sleeps longer than the cap;
      each delay doubles the one before it, up to the cap. */
  lemma {:induction false} GenerationBounds(prompt: Prompt, service: Service)
    ensures 1 <= Generation(prompt, service).calls <= MaxRetries
    ensures var run := Generation(prompt, service);
            |run.slept| == if run.calls == MaxRetries && !Stops(service(prompt, MaxRetries - 1))
                           then run.calls else run.calls - 1
    ensures forall d :: d in Generation(prompt, service).slept ==> d <= MaxDelay
    ensures var ds := Generation(prompt, service).slept;
            |ds| > 0 ==> ds[0] == InitialDelay
    ensures var ds := Generation(prompt, service).slept;
            forall i :: 0 <= i < |ds| - 1 ==> ds[i + 1] == Min(2 * ds[i], MaxDelay)
  {
    var run := Generation(prompt, service);
    forall i | 0 <= i < |run.slept| - 1
      ensures run.slept[i + 1] == Min(2 * run.slept[i], MaxDelay)
    {
      BackoffStep(i);
    }
  }

  /** A reply on the first attempt is returned at once, an empty or missing text
      as "", with no sleep. */
  lemma FirstReplyReturned(prompt: Prompt, service: Service, text: Option<string>)
    requires service(prompt, 0) == Replied(text)
    ensures Generation(prompt, service) == RetryRun(Success(text.GetOr("")), [], 1)
  {
  }

  /** A non-retryable error on the first attempt is rethrown after that single
      call, with no sleep. */
  lemma NonRetryableShortCircuit(prompt: Prompt, service: Service, message: string)
    requires service(prompt, 0) == Threw(message) && !IsRetryableError(message)
    ensures Generation(prompt, service) == RetryRun(Failure(message), [], 1)
  {
  }

  /** Three retryable failures: three calls, sleeps of 2000, 4000 and 8000 ms
      (the last one after the final attempt), then the last error is thrown. */
  lemma AllAttemptsRetryable(prompt: Prompt, service: Service, m0: string, m1: string, m2: string)
    requires service(prompt, 0) == Threw(m0) && IsRetryableError(m0)
    requires service(prompt, 1) == Threw(m1) && IsRetryableError(m1)
    requires service(prompt, 2) == Threw(m2) && IsRetryableError(m2)
    ensures Generation(prompt, service) == RetryRun(Failure(m2), [2000, 4000, 8000], 3)
  {
    assert FirstStop(prompt, service, 0) == MaxRetries;
    assert Pow2(1) == 2 && Pow2(2) == 4;
    assert Backoffs(3) == [2000, 4000, 8000];
  }

  // ---------------------------------------------------------------------------
  // Analysis

  /** A finding as the generator produces it; a missing `status` is "". */
  datatype GeneratedFinding = GeneratedFinding(
    severity: string, category: string, findingTitle: string, evidenceSnippet: Option<string>,
    status: string, remediationPlan: string, aiFixCode: Option<string>, edgeScoreComponent: Option<int>)

  /** What `analyzeHtmlAndGenerateFindings` resolves to. */
  datatype AnalysisResult = AnalysisResult(findings: seq<GeneratedFinding>, execSummary: string,
                                           riskAnalysis: string, remediationOverview: string)

  /** What `JSON.parse` yields when it succeeds: the value `null`, or any other
      value, seen through the four properties that are read from it. A property is
      `None` when it is missing or, for `findings`, not an array; for the three
      texts, `None` also stands for any other falsy value. */
  datatype Parsed =
    | ParsedNull
    | ParsedValue(findings: Option<seq<GeneratedFinding>>, execSummary: Option<string>,
                  riskAnalysis: Option<string>, remediationOverview: Option<string>)

  /** `JSON.parse`, abstracted: `None` when it throws. */
  type JsonParser = string -> Option<Parsed>

  /** The prompt inputs: the home page cut to 15000 characters, the contact page,
      privacy page and policy text to 5000 each, a missing one becoming "". */
  function BuildPrompt(htmlHome: string, htmlContact: Option<string>, htmlPrivacy: Option<string>,
                       policyText: Option<string>, techStackJson: Option<string>,
                       formsDetectedJson: Option<string>): (p: Prompt)
    ensures |p.home| == if |htmlHome| <= HomeLimit then |htmlHome| else HomeLimit
    ensures p.home == htmlHome[..|p.home|]
    ensures |p.contact| <= SecondaryLimit && |p.privacy| <= SecondaryLimit && |p.policy| <= SecondaryLimit
    ensures htmlContact.None? ==> p.contact == ""
    ensures htmlContact.Some? ==>
              |p.contact| == (if |htmlContact.value| <= SecondaryLimit then |htmlContact.value| else SecondaryLimit)
              && p.contact == htmlContact.value[..|p.contact|]
    ensures htmlPrivacy.None? ==> p.privacy == ""
    ensures htmlPrivacy.Some? ==>
              |p.privacy| == (if |htmlPrivacy.value| <= SecondaryLimit then |htmlPrivacy.value| else SecondaryLimit)
              && p.privacy == htmlPrivacy.value[..|p.privacy|]
    ensures policyText.None? ==> p.policy == ""
    ensures policyText.Some? ==>
              |p.policy| == (if |policyText.value| <= SecondaryLimit then |policyText.value| else SecondaryLimit)
              && p.policy == policyText.value[..|p.policy|]
    ensures p.techStack == techStackJson.GetOr("") && p.formsDetected == formsDetectedJson.GetOr("")
  {
    Prompt(Take(htmlHome, HomeLimit),
           Take(htmlContact.GetOr(""), SecondaryLimit),
           Take(htmlPrivacy.GetOr(""), SecondaryLimit),
           Take(policyText.GetOr(""), SecondaryLimit),
           techStackJson.GetOr(""),
           formsDetectedJson.GetOr(""))
  }

  const Fence: string := "```"

  predicate StartsWith(s: string, prefix: string)
  {
    |prefix| <= |s| && s[..|prefix|] == prefix
  }

  /** What follows the opening fence once the optional "json" tag and the white
      space after it are skipped. */
  function SkipTag(afterFence: string): string
  {
    TrimStart(if StartsWith(afterFence, "json") then afterFence[4..] else afterFence)
  }

  /** The text matched by the group of /```(?:json)?\s*([\s\S]*?)```/ at its first
      match, or the whole text when there is no match: after the first fence, an
      optional "json" tag and white space are skipped, and the group runs up to the
      next fence. With no closing fence there is no match. */
  function ExtractJsonBody(text: string): string
  {
    match IndexOf(text, Fence, 0)
    case None => text
    case Some(open) =>
      var body := SkipTag(text[open + |Fence|..]);
      match IndexOf(body, Fence, 0)
      case None => text
      case Some(close) => body[..close]
  }

  /** The text handed to `JSON.parse`. */
  function JsonCandidate(text: string): string
  {
    Trim(ExtractJsonBody(text))
  }

  /** The single finding returned when the reply cannot be parsed. */
  const FallbackFinding: GeneratedFinding :=
    GeneratedFinding("INFO", "Audit", "Audit completed with parsing error", None, "OPEN",
                     "Manual review required - LLM response could not be parsed", None, Some(50))

  const FallbackResult: AnalysisResult :=
    AnalysisResult([FallbackFinding],
                   "The automated audit completed but encountered parsing issues. Manual review is recommended.",
                   "Unable to fully assess risk due to parsing error.",
                   "Please conduct a manual security review.")

  /** The TypeError thrown when the parsed value is `null` and `parsed.findings`
      is read from it. */
  const NullAccessError: string := "Cannot read properties of null (reading 'findings')"

  /** Decoding of a reply: the fallback when parsing fails; otherwise the parsed
      value with a non-array `findings` as [] and missing texts as "". */
  function DecodeResponse(responseText: string, parse: JsonParser): Result<AnalysisResult>
  {
    match parse(JsonCandidate(responseText))
    case None => Success(FallbackResult)
    case Some(ParsedNull) => Failure(NullAccessError)
    case Some(ParsedValue(findings, exec, risk, overview)) =>
      Success(AnalysisResult(findings.GetOr([]), exec.GetOr(""), risk.GetOr(""), overview.GetOr("")))
  }

  /** The whole analysis: errors of the retry loop propagate unchanged. */
  function Analysis(prompt: Prompt, service: Service, parse: JsonParser): Result<AnalysisResult>
  {
    match Generation(prompt, service).result
    case Failure(e) => Failure(e)
    case Success(text) => DecodeResponse(text, parse)
  }

  /** `analyzeHtmlAndGenerateFindings`. */
  method AnalyzeHtmlAndGenerateFindings(htmlHome: string, htmlContact: Option<string>,
                                        htmlPrivacy: Option<string>, policyText: Option<string>,
                                        techStackJson: Option<string>, formsDetectedJson: Option<string>,
                                        service: Service, parse: JsonParser)
    returns (r: Result<AnalysisResult>)
    ensures r == Analysis(BuildPrompt(htmlHome, htmlContact, htmlPrivacy, policyText, techStackJson, formsDetectedJson), service, parse)
  {
    var prompt := BuildPrompt(htmlHome, htmlContact, htmlPrivacy, policyText, techStackJson, formsDetectedJson);
    var text, slept, calls := GenerateWithRetry(prompt, service);
    if text.Failure? {
      return Failure(text.error);
    }
    r := DecodeResponse(text.value, parse);
  }

  /** Text with no fence at all is parsed whole. */
  lemma NoFenceWholeText(text: string)
    requires !Contains(text, Fence)
    ensures ExtractJsonBody(text) == text
  {
    ContainsIff(text, Fence);
    if IndexOf(text, Fence, 0).Some? {
      OccursContained(text, Fence, IndexOf(text, Fence, 0).value);
    }
  }

  /** An opening fence with no closing fence after it: the whole text is parsed. */
  lemma UnclosedFenceWholeText(pre: string, rest: string)
    requires '`' !in pre && !Contains(rest, Fence)
    ensures ExtractJsonBody(pre + Fence + rest) == pre + Fence + rest
  {
    var text := pre + Fence + rest;
    FirstFenceAfterPlainText(pre, rest);
    assert text[|pre| + 3..] == rest;
    var afterTag := if StartsWith(rest, "json") then rest[4..] else rest;
    assert afterTag == rest[|rest| - |afterTag|..];
    NoFenceInSuffix(rest, |rest| - |SkipTag(rest)|);
  }

  /** Extraction after a fence that follows text without backticks. */
  lemma ExtractAfterFirstFence(pre: string, rest: string)
    requires '`' !in pre
    ensures ExtractJsonBody(pre + Fence + rest) ==
            match IndexOf(SkipTag(rest), Fence, 0)
            case None => pre + Fence + rest
            case Some(close) => SkipTag(rest)[..close]
  {
    FirstFenceAfterPlainText(pre, rest);
    assert (pre + Fence + rest)[|pre| + 3..] == rest;
  }

  /** Skipping the tag and the white space before a body without backticks that is
      followed by a fence. */
  lemma SkipTagBeforeFence(tag: string, body: string, later: string)
    requires tag == "json" || tag == ""
    requires tag == "" ==> !StartsWith(body, "json")
    requires later != [] && later[0] == '`'
    ensures SkipTag(tag + body + later) == TrimStart(body) + later
  {
    if tag == "json" {
      SkipJsonTag(body, later);
    } else {
      assert tag + body + later == body + later;
      SkipNoTag(body, later);
    }
    TrimStartKeepsLaterText(body, later);
  }

  /** A "json" tag is dropped. */
  lemma SkipJsonTag(body: string, later: string)
    ensures SkipTag("json" + body + later) == TrimStart(body + later)
  {
    var afterFence := "json" + body + later;
    assert afterFence[..4] == "json";
    assert afterFence[4..] == body + later;
  }

  /** Without a tag nothing but white space is dropped. */
  lemma SkipNoTag(body: string, later: string)
    requires !StartsWith(body, "json")
    requires later != [] && later[0] == '`'
    ensures SkipTag(body + later) == TrimStart(body + later)
  {
    var afterFence := body + later;
    if |body| >= 4 {
      assert afterFence[..4] == body[..4];
    } else if |afterFence| >= 4 {
      assert afterFence[|body|] == '`';
      assert afterFence[..4][|body|] == '`';
    }
  }

  /** When what follows the opening fence skips to `t` and a fence, `t` is the body. */
  lemma ExtractSkippedBody(pre: string, rest: string, t: string, post: string)
    requires '`' !in pre && '`' !in t
    requires SkipTag(rest) == t + (Fence + post)
    ensures ExtractJsonBody(pre + Fence + rest) == t
  {
    ExtractAfterFirstFence(pre, rest);
    assert t + (Fence + post) == t + Fence + post;
    FirstFenceAfterPlainText(t, post);
    assert (t + Fence + post)[..|t|] == t;
  }

  /** Skipping white space cannot bring in a backtick that was not there. */
  lemma NoBacktickAfterTrimStart(s: string)
    requires '`' !in s
    ensures '`' !in TrimStart(s)
  {
    assert TrimStart(s) == s[|s| - |TrimStart(s)|..];
  }

  /** A fenced body is extracted: the text between the first fence and the next
      one, without the "json" tag and the white space after it. */
  lemma FencedBodyExtracted(pre: string, tag: string, body: string, post: string)
    requires '`' !in pre && '`' !in body
    requires tag == "json" || tag == ""
    requires tag == "" ==> !StartsWith(body, "json")
    ensures ExtractJsonBody(pre + Fence + (tag + body + (Fence + post))) == TrimStart(body)
  {
    SkipTagBeforeFence(tag, body, Fence + post);
    NoBacktickAfterTrimStart(body);
    ExtractSkippedBody(pre, tag + body + (Fence + post), TrimStart(body), post);
  }

  /** `"```"` first occurs right after a text without backticks. */
  lemma FirstFenceAfterPlainText(pre: string, rest: string)
    requires '`' !in pre
    ensures IndexOf(pre + Fence + rest, Fence, 0) == Some(|pre|)
  {
    var text := pre + Fence + rest;
    assert OccursAt(text, Fence, |pre|);
    forall j | 0 <= j < |pre| ensures !OccursAt(text, Fence, j) {
      assert text[j] == pre[j];
    }
  }

  /** A suffix of a text without a fence has no fence either. */
  lemma NoFenceInSuffix(s: string, a: nat)
    requires a <= |s| && !Contains(s, Fence)
    ensures IndexOf(s[a..], Fence, 0).None?
  {
    var r := IndexOf(s[a..], Fence, 0);
    if r.Some? {
      assert s[a..][r.value..r.value + 3] == s[a + r.value..a + r.value + 3];
      OccursContained(s, Fence, a + r.value);
    }
  }

  /** Skipping leading white space stops at the first character of a text that
      starts with a non-space, or passes into the text that follows an all-space one. */
  lemma TrimStartKeepsLaterText(body: string, later: string)
    requires later != [] && !IsJsSpace(later[0])
    ensures TrimStart(body + later) == TrimStart(body) + later
    decreases |body|
  {
    if |body| > 0 {
      assert (body + later)[0] == body[0];
      if IsJsSpace(body[0]) {
        assert (body + later)[1..] == body[1..] + later;
        TrimStartKeepsLaterText(body[1..], later);
      }
    } else {
      assert body + later == later;
    }
  }

  /** When the reply cannot be parsed, the result is exactly the fallback: one
      INFO finding, status OPEN, score 50, and the fixed narratives. */
  lemma ParseFailureFallsBack(responseText: string, parse: JsonParser)
    requires parse(JsonCandidate(responseText)).None?
    ensures DecodeResponse(responseText, parse) == Success(FallbackResult)
    ensures var f := DecodeResponse(responseText, parse).value.findings;
            |f| == 1 && f[0].severity == "INFO" && f[0].status == "OPEN" && f[0].edgeScoreComponent == Some(50)
  {
  }

  /** A parsed value without a findings array or narratives decodes to no
      findings and empty narratives, never to an error. */
  lemma MissingPropertiesDefault(responseText: string, parse: JsonParser)
    requires parse(JsonCandidate(responseText)) == Some(ParsedValue(None, None, None, None))
    ensures DecodeResponse(responseText, parse) == Success(AnalysisResult([], "", "", ""))
  {
  }

  /** Each property of a parsed value defaults on its own: a findings array
      without narratives keeps its findings, narratives without findings keep
      their texts. */
  lemma PropertiesDefault(responseText: string, parse: JsonParser, findings: Option<seq<GeneratedFinding>>,
                          exec: Option<string>, risk: Option<string>, overview: Option<string>)
    requires parse(JsonCandidate(responseText)) == Some(ParsedValue(findings, exec, risk, overview))
    ensures DecodeResponse(responseText, parse).Success?
    ensures var r := DecodeResponse(responseText, parse).value;
            && (findings.None? ==> r.findings == []) && (findings.Some? ==> r.findings == findings.value)
            && (exec.None? ==> r.execSummary == "") && (exec.Some? ==> r.execSummary == exec.value)
            && (risk.None? ==> r.riskAnalysis == "") && (risk.Some? ==> r.riskAnalysis == risk.value)
            && (overview.None? ==> r.remediationOverview == "")
            && (overview.Some? ==> r.remediationOverview == overview.value)
  {
  }

  /** Decoding only fails when the parsed value is `null`. */
  lemma DecodeFailsOnlyOnNull(responseText: string, parse: JsonParser)
    ensures DecodeResponse(responseText, parse).Failure? <==> parse(JsonCandidate(responseText)) == Some(ParsedNull)
  {
    var parsed := parse(JsonCandidate(responseText));
    if parsed.Some? && parsed.value.ParsedValue? {
      assert DecodeResponse(responseText, parse).Success?;
    }
  }

  /** Errors of the retry loop reach the caller unchanged; otherwise the result
      is the decoding of the reply. */
  lemma AnalysisPropagatesErrors(prompt: Prompt, service: Service, parse: JsonParser)
    ensures Generation(prompt, service).result.Failure? ==>
              Analysis(prompt, service, parse) == Failure(Generation(prompt, service).result.error)
    ensures Generation(prompt, service).result.Success? ==>
              Analysis(prompt, service, parse) == DecodeResponse(Generation(prompt, service).result.value, parse)
  {
  }
}
