/**
 * The decision ladder of `QAUpload.handleSubmit` (js/qa-upload.js): from the filled
 * slots, the two webhook URLs, the page location and what the single POST to the
 * workflow webhook produced, to the outcome the result box shows. The DOM, the
 * timer and the network call itself are inputs; JSON parsing is an oracle that
 * yields a record of optional fields or a failure.
 */
module Submission {
  import opened JsText
  import opened Browser
  import opened SlotNames

  /** One entry of `uploadedImages`: what `handleFileSelect` records for a slot. */
  datatype ImageRecord = ImageRecord(
    imageId: string, imageUrl: string, imageType: string, uploadedAt: string, foxId: Option<string>)

  /** The webhook used when the configuration has none when the uploader is built. */
  const DefaultWebhookUrl: string := "http://" + "localhost" + ":5678/webhook-test/vehicle-qa-trigger"

  /** The constructor's `window.config?.N8N_WEBHOOK_URL || <default>`: never empty. */
  function ConstructorWebhookUrl(configUrl: Option<string>): (r: string)
    ensures r != ""
    ensures NonEmpty(configUrl) ==> r == configUrl.value
    ensures !NonEmpty(configUrl) ==> r == DefaultWebhookUrl
  {
    if NonEmpty(configUrl) then configUrl.value else DefaultWebhookUrl
  }

  // ---------------------------------------------------------------------------
  // Batch assembly
  // ---------------------------------------------------------------------------

  /** The form fields read at submit time and the signed-in user's id, if any. */
  datatype Metadata = Metadata(taskId: string, foxInput: string, clientId: string, vehicleInput: string, userId: Option<string>)

  /** One image of the POST body: the slot's record, re-stamped with the batch identifiers. */
  datatype BatchImage = BatchImage(
    imageId: string, imageUrl: string, imageType: string, uploadedAt: string,
    taskId: string, foxId: string, clientId: string, vehicleId: string)

  datatype Batch = Batch(taskId: string, foxId: string, clientId: string, vehicleId: string, images: seq<BatchImage>)

  /** `user?.id || fox_id`: the signed-in identity wins over the typed-in Fox ID. */
  function SubmitterId(userId: Option<string>, foxInput: string): (r: string)
    ensures NonEmpty(userId) ==> r == userId.value
    ensures !NonEmpty(userId) ==> r == foxInput
  {
    if NonEmpty(userId) then userId.value else foxInput
  }

  /** `vehicleId.value || 'UNKNOWN'`. */
  function VehicleId(input: string): (r: string)
    ensures r != ""
    ensures input != "" ==> r == input
    ensures input == "" ==> r == "UNKNOWN"
  {
    if input != "" then input else "UNKNOWN"
  }

  function Stamp(rec: ImageRecord, b: Batch): BatchImage {
    BatchImage(rec.imageId, rec.imageUrl, rec.imageType, rec.uploadedAt, b.taskId, b.foxId, b.clientId, b.vehicleId)
  }

  /** `order` lists every key of `images` exactly once. */
  predicate KeyOrder(order: seq<string>, images: map<string, ImageRecord>) {
    (forall i :: 0 <= i < |order| ==> order[i] in images)
    && (forall k :: k in images ==> k in order)
    && (forall i, j :: 0 <= i < j < |order| ==> order[i] != order[j])
  }

  /** A list without repeats has as many distinct elements as entries. */
  lemma {:induction false} DistinctListSize(s: seq<string>)
    requires forall i, j :: 0 <= i < j < |s| ==> s[i] != s[j]
    ensures |set x | x in s| == |s|
  {
    if s != [] {
      DistinctListSize(s[1..]);
      assert (set x | x in s) == {s[0]} + (set x | x in s[1..]);
      assert forall j :: 0 <= j < |s[1..]| ==> s[1..][j] == s[j + 1];
      assert s[0] !in s[1..];
    }
  }

  /**
   * The POST body. `order` is the key order of the `uploadedImages` object, which
   * `Object.values` follows; each record is copied and stamped with the shared
   * task, submitter, client and vehicle identifiers (the submitter replaces the
   * record's own `fox_id`).
   */
  function BuildBatch(images: map<string, ImageRecord>, order: seq<string>, meta: Metadata): (b: Batch)
    requires KeyOrder(order, images)
    ensures b.taskId == meta.taskId && b.clientId == meta.clientId
    ensures b.foxId == SubmitterId(meta.userId, meta.foxInput) && b.vehicleId == VehicleId(meta.vehicleInput)
    ensures |b.images| == |order| == |images.Keys|
    ensures forall i :: 0 <= i < |order| ==> b.images[i] == Stamp(images[order[i]], b)
    ensures forall k :: k in images ==>
              exists i :: 0 <= i < |order| && order[i] == k && b.images[i] == Stamp(images[k], b)
  {
    DistinctListSize(order);
    assert (set x | x in order) == images.Keys;
    var header := Batch(meta.taskId, SubmitterId(meta.userId, meta.foxInput), meta.clientId, VehicleId(meta.vehicleInput), []);
    header.(images := seq(|order|, i requires 0 <= i < |order| => Stamp(images[order[i]], header)))
  }

  /** Every image of a batch carries the batch's submitter, whatever the record said. */
  lemma BatchImagesShareSubmitter(images: map<string, ImageRecord>, order: seq<string>, meta: Metadata, i: int)
    requires KeyOrder(order, images)
    requires 0 <= i < |order|
    ensures BuildBatch(images, order, meta).images[i].foxId == SubmitterId(meta.userId, meta.foxInput)
    ensures BuildBatch(images, order, meta).images[i].imageUrl == images[order[i]].imageUrl
  {
  }

  // ---------------------------------------------------------------------------
  // The webhook's reply
  // ---------------------------------------------------------------------------

  /** One detected issue; only the fields that decide its severity band. */
  datatype Issue = Issue(severity: Option<int>, confidence: Option<int>)

  datatype SeverityBand = Minor | Moderate | Critical

  /** A number field that is present and not 0, the only falsy number modelled. */
  predicate TruthyNumber(n: Option<int>) {
    n.Some? && n.value != 0
  }

  /** `issue.severity || issue.confidence || 'N/A'`; None stands for the 'N/A' text. */
  function IssueSeverity(issue: Issue): (r: Option<int>)
    ensures r.Some? ==> r.value != 0
    ensures TruthyNumber(issue.severity) ==> r == issue.severity
    ensures !TruthyNumber(issue.severity) && TruthyNumber(issue.confidence) ==> r == issue.confidence
    ensures !TruthyNumber(issue.severity) && !TruthyNumber(issue.confidence) ==> r.None?
  {
    if TruthyNumber(issue.severity) then issue.severity
    else if TruthyNumber(issue.confidence) then issue.confidence
    else None
  }

  /** `severity >= 7 ? critical : severity >= 4 ? moderate : minor`; 'N/A' compares false, so it is minor. */
  function Band(severity: Option<int>): (b: SeverityBand)
    ensures b == Critical <==> severity.Some? && severity.value >= 7
    ensures b == Moderate <==> severity.Some? && 4 <= severity.value < 7
    ensures b == Minor <==> severity.None? || severity.value < 4
  {
    match severity
    case None => Minor
    case Some(n) => if n >= 7 then Critical else if n >= 4 then Moderate else Minor
  }

  function Rank(b: SeverityBand): nat {
    match b
    case Minor => 0
    case Moderate => 1
    case Critical => 2
  }

  /** A higher severity never lands in a lower band. */
  lemma BandMonotone(m: int, n: int)
    requires m <= n
    ensures Rank(Band(Some(m))) <= Rank(Band(Some(n)))
  {
  }

  /**
   * The fields of a parsed reply that `handleSubmit` reads; an absent field is None.
   * Fields whose type the client does not fix are JsValues.
   */
  datatype WebhookReply = WebhookReply(
    error: Option<JsValue>, workflowError: Option<JsValue>, status: Option<JsValue>, failed: Option<JsValue>,
    errorMessage: Option<JsValue>, message: Option<JsValue>,
    errorNode: Option<JsValue>, failedNode: Option<JsValue>, errorDetails: Option<JsValue>, details: Option<JsValue>,
    overallStatus: Option<JsValue>, totalIssues: Option<int>, feedback: Option<string>, feedbackText: Option<string>,
    processingTime: Option<int>, issues: Option<seq<Issue>>, allIssues: Option<seq<Issue>>, success: Option<JsValue>)

  /** What `JSON.parse` makes of the body text, when it is called. */
  datatype ParseResult = ParseFailed | ParsedObject(reply: WebhookReply)

  /**
   * What the POST produced: a rejected `fetch` (timeout abort, network failure, ...)
   * with the error's name and message, or a response. `body` is None when reading
   * the body threw; `parse` is what parsing the body text would give.
   */
  datatype HttpResult =
    | FetchRejected(name: string, message: string)
    | Response(ok: bool, status: nat, statusText: string, contentType: string, body: Option<string>, parse: ParseResult)

  datatype Verdict = Pass | Fail | ReviewNeeded

  datatype FailureKind = TimedOut | Unreachable | CorsBlocked | OtherFailure

  /** The message and details the "Submission Failed" box shows. */
  datatype Failure = Failure(kind: FailureKind, message: string, details: string)

  /** What the result box ends up showing. */
  datatype SubmitOutcome =
    | MissingPhotos(missing: seq<string>)
    | WebhookNotConfigured
    | LocalhostInProduction(url: string)
    | WorkflowFailed(message: JsValue, node: JsValue, details: JsValue)
    | Resolved(verdict: Verdict, reported: Verdict, totalIssues: int, issues: seq<Issue>, feedback: string, processingTime: int)
    | Acknowledged(headline: JsValue, simpleSuccess: bool)
    | Processing
    | SubmissionFailed(failure: Failure)

  const TimeoutMessage: string := "Request timed out. The webhook took too long to respond."
  const TimeoutDetails: string := "This usually means n8n is not responding or is overloaded."
  const UnreachableMessage: string := "Network error: Could not reach webhook."
  const UnreachableDetails: string := "Possible causes:\n\U{2022} n8n is not running or not accessible\n\U{2022} CORS is not configured in n8n\n\U{2022} Webhook URL is incorrect\n\U{2022} Network/firewall blocking the request"
  const CorsMessage: string := "CORS error: Browser blocked the request."
  const CorsDetails: string := "n8n must allow requests from your domain. Check n8n CORS settings."

  // ---------------------------------------------------------------------------
  // Steps of the ladder
  // ---------------------------------------------------------------------------

  /** `window.config?.N8N_WEBHOOK_URL || this.N8N_WEBHOOK_URL`. */
  function ResolveWebhookUrl(configUrl: Option<string>, fallback: string): (r: string)
    ensures NonEmpty(configUrl) ==> r == configUrl.value
    ensures !NonEmpty(configUrl) ==> r == fallback
    ensures r == "" <==> !NonEmpty(configUrl) && fallback == ""
  {
    if NonEmpty(configUrl) then configUrl.value else fallback
  }

  /** A deployed page: the host names neither localhost nor 127.0.0.1 (substring test) and the page is served over https. */
  predicate IsProductionHost(loc: Location) {
    !Contains(loc.hostname, "localhost") && !Contains(loc.hostname, "127.0.0.1") && loc.protocol == "https:"
  }

  predicate IsLoopbackUrl(url: string) {
    Contains(url, "localhost") || Contains(url, "127.0.0.1")
  }

  /** The body is parsed only when it is non-empty and either declared JSON or, trimmed, starts with `{`. */
  predicate ShouldParse(contentType: string, text: string) {
    text != "" && (Contains(contentType, "application/json") || StartsWith(Trim(text), "{"))
  }

  function BodyText(body: Option<string>): string {
    if body.Some? then body.value else ""
  }

  /** `webhookResponse` after the parse step: None when parsing was skipped or threw. */
  function ParsedReply(h: HttpResult): (r: Option<WebhookReply>)
    requires h.Response?
    ensures r.Some? <==> ShouldParse(h.contentType, BodyText(h.body)) && h.parse.ParsedObject?
    ensures r.Some? ==> r.value == h.parse.reply
  {
    if ShouldParse(h.contentType, BodyText(h.body)) && h.parse.ParsedObject? then Some(h.parse.reply) else None
  }

  /** The explicit error markers, checked before any status. */
  predicate HasWorkflowError(w: WebhookReply) {
    Present(w.error) || Present(w.workflowError) || w.status == Some(JsString("error")) || w.failed == Some(JsBool(true))
  }

  /** The workflow-error box: the most specific message, node and details available. */
  function WorkflowErrorOf(w: WebhookReply): (o: SubmitOutcome)
    ensures o.WorkflowFailed?
    ensures Present(w.errorMessage) ==> o.message == w.errorMessage.value
    ensures !Present(w.errorMessage) && Present(w.error) ==> o.message == w.error.value
    ensures !Present(w.errorMessage) && !Present(w.error) && Present(w.message) ==> o.message == w.message.value
    ensures !Present(w.errorMessage) && !Present(w.error) && !Present(w.message) ==>
              o.message == JsString("Workflow execution failed")
    ensures Present(w.errorNode) ==> o.node == w.errorNode.value
    ensures !Present(w.errorNode) && Present(w.failedNode) ==> o.node == w.failedNode.value
    ensures !Present(w.errorNode) && !Present(w.failedNode) ==> o.node == JsString("Unknown")
    ensures Present(w.errorDetails) ==> o.details == w.errorDetails.value
    ensures !Present(w.errorDetails) && Present(w.details) ==> o.details == w.details.value
    ensures !Present(w.errorDetails) && !Present(w.details) ==> o.details == JsString("")
  {
    WorkflowFailed(
      Or(w.errorMessage, Or(w.error, Or(w.message, JsString("Workflow execution failed")))),
      Or(w.errorNode, Or(w.failedNode, JsString("Unknown"))),
      Or(w.errorDetails, Or(w.details, JsString(""))))
  }

  /** The recognised status strings. */
  function VerdictOf(v: JsValue): (r: Option<Verdict>)
    ensures r == Some(Pass) <==> v == JsString("pass")
    ensures r == Some(Fail) <==> v == JsString("fail")
    ensures r == Some(ReviewNeeded) <==> v == JsString("review_needed")
  {
    if v == JsString("pass") then Some(Pass)
    else if v == JsString("fail") then Some(Fail)
    else if v == JsString("review_needed") then Some(ReviewNeeded)
    else None
  }

  /** `status || overall_status`, recognised only for pass, fail and review_needed. */
  function ReportedVerdict(w: WebhookReply): (r: Option<Verdict>)
    ensures Present(w.status) ==> r == VerdictOf(w.status.value)
    ensures !Present(w.status) && Present(w.overallStatus) ==> r == VerdictOf(w.overallStatus.value)
    ensures !Present(w.status) && !Present(w.overallStatus) ==> r.None?
  {
    var st := Or(w.status, Or(w.overallStatus, JsNull));
    if Truthy(st) then VerdictOf(st) else None
  }

  /** `total_issues || 0`. */
  function TotalIssues(w: WebhookReply): (n: int)
    ensures w.totalIssues.Some? ==> n == w.totalIssues.value
    ensures w.totalIssues.None? ==> n == 0
  {
    if w.totalIssues.Some? then w.totalIssues.value else 0
  }

  /** `feedback || feedback_text || ''`. */
  function Feedback(w: WebhookReply): (r: string)
    ensures NonEmpty(w.feedback) ==> r == w.feedback.value
    ensures !NonEmpty(w.feedback) && NonEmpty(w.feedbackText) ==> r == w.feedbackText.value
    ensures !NonEmpty(w.feedback) && !NonEmpty(w.feedbackText) ==> r == ""
  {
    if NonEmpty(w.feedback) then w.feedback.value else if NonEmpty(w.feedbackText) then w.feedbackText.value else ""
  }

  /** `issues || all_issues || []`: an array is truthy even when empty, so a present `issues` wins. */
  function Issues(w: WebhookReply): (r: seq<Issue>)
    ensures w.issues.Some? ==> r == w.issues.value
    ensures w.issues.None? && w.allIssues.Some? ==> r == w.allIssues.value
    ensures w.issues.None? && w.allIssues.None? ==> r == []
  {
    if w.issues.Some? then w.issues.value else if w.allIssues.Some? then w.allIssues.value else []
  }

  /** `processing_time_seconds || 0`. */
  function ProcessingTime(w: WebhookReply): (n: int)
    ensures w.processingTime.Some? ==> n == w.processingTime.value
    ensures w.processingTime.None? ==> n == 0
  {
    if w.processingTime.Some? then w.processingTime.value else 0
  }

  /** Issues are listed or counted, or the feedback is there and never says "clean" in any letter case. */
  predicate HasActualIssues(w: WebhookReply) {
    |Issues(w)| > 0 || TotalIssues(w) > 0 || (Feedback(w) != "" && !ContainsIgnoringCase(Feedback(w), "clean"))
  }

  /** The "pass but has issues" guard: such a pass is shown as review_needed. */
  function DisplayVerdict(reported: Verdict, hasIssues: bool): (v: Verdict)
    ensures v == Pass <==> reported == Pass && !hasIssues
    ensures reported != Pass ==> v == reported
    ensures reported == Pass && hasIssues ==> v == ReviewNeeded
  {
    if reported == Pass && hasIssues then ReviewNeeded else reported
  }

  /** The box shown for a reply with neither an error marker nor a recognised status. */
  function AcknowledgedOf(w: WebhookReply): (o: SubmitOutcome)
    ensures o.Acknowledged?
    ensures Present(w.message) ==> o.headline == w.message.value
    ensures !Present(w.message) ==> o.headline == JsString("Quality check is processing...")
    ensures o.simpleSuccess <==> Present(w.message) || Present(w.success)
  {
    Acknowledged(Or(w.message, JsString("Quality check is processing...")), Present(w.message) || Present(w.success))
  }

  /** The message of the Error thrown for a non-2xx status: `HTTP ${status}: ${statusText}`. */
  function HttpErrorMessage(status: nat, statusText: string): (m: string)
    ensures StartsWith(m, "HTTP " + NatToString(status) + ": ")
    ensures |statusText| <= |m| && m[|m| - |statusText|..] == statusText
  {
    "HTTP " + NatToString(status) + ": " + statusText
  }

  /** The number of digits a string starts with. */
  function LeadingDigits(s: string): nat {
    if s != [] && '0' <= s[0] <= '9' then 1 + LeadingDigits(s[1..]) else 0
  }

  lemma {:induction false} LeadingDigitsOfNumber(d: string, t: string)
    requires forall i :: 0 <= i < |d| ==> '0' <= d[i] <= '9'
    ensures LeadingDigits(d + ": " + t) == |d|
  {
    if d != [] {
      assert (d + ": " + t)[1..] == d[1..] + ": " + t;
      LeadingDigitsOfNumber(d[1..], t);
    }
  }

  /** The error message determines the status and its text: no two responses share one. */
  lemma HttpErrorMessageDeterminesStatus(s1: nat, t1: string, s2: nat, t2: string)
    requires HttpErrorMessage(s1, t1) == HttpErrorMessage(s2, t2)
    ensures s1 == s2 && t1 == t2
  {
    var a, b := NatToString(s1), NatToString(s2);
    var m := HttpErrorMessage(s1, t1);
    assert m[5..] == a + ": " + t1;
    assert m[5..] == b + ": " + t2;
    LeadingDigitsOfNumber(a, t1);
    LeadingDigitsOfNumber(b, t2);
    assert a == m[5..][..|a|];
    assert b == m[5..][..|b|];
    NatToStringInjective(s1, s2);
    assert t1 == m[5..][|a| + 2..];
    assert t2 == m[5..][|b| + 2..];
  }

  /** The catch block's classification, as written: AbortError or "timeout", then "Failed to fetch", then "CORS". */
  function ClassifyFailureAsWritten(name: string, message: string): (f: Failure)
    ensures f.kind == TimedOut <==> name == "AbortError" || Contains(message, "timeout")
    ensures f.kind == Unreachable <==> !(name == "AbortError" || Contains(message, "timeout")) && Contains(message, "Failed to fetch")
    ensures f.kind == CorsBlocked <==>
              !(name == "AbortError" || Contains(message, "timeout") || Contains(message, "Failed to fetch")) && Contains(message, "CORS")
    ensures f.kind == OtherFailure ==> f == Failure(OtherFailure, message, "")
  {
    ContainsItself(message);
    if name == "AbortError" || Contains(message, "timeout") then Failure(TimedOut, TimeoutMessage, TimeoutDetails)
    else if message == "Failed to fetch" || Contains(message, "Failed to fetch") then Failure(Unreachable, UnreachableMessage, UnreachableDetails)
    else if Contains(message, "CORS") then Failure(CorsBlocked, CorsMessage, CorsDetails)
    else Failure(OtherFailure, message, "")
  }

  /**
   * The classification with the timeout of `AbortSignal.timeout` recognised: that
   * signal rejects the fetch with a "TimeoutError", not an "AbortError".
   */
  function ClassifyFailure(name: string, message: string): (f: Failure)
    ensures name == "AbortError" || name == "TimeoutError" ==> f.kind == TimedOut
    ensures name != "TimeoutError" ==> f == ClassifyFailureAsWritten(name, message)
  {
    if name == "TimeoutError" then Failure(TimedOut, TimeoutMessage, TimeoutDetails)
    else ClassifyFailureAsWritten(name, message)
  }

  /** Everything after the guards: the POST's result, read in the source's order. */
  function ClassifyResponse(h: HttpResult): (o: SubmitOutcome)
    ensures h.FetchRejected? ==> o == SubmissionFailed(ClassifyFailureAsWritten(h.name, h.message))
    ensures h.Response? && !h.ok ==>
              o == SubmissionFailed(ClassifyFailureAsWritten("Error", HttpErrorMessage(h.status, h.statusText)))
    ensures h.Response? && h.ok && ParsedReply(h).None? ==> o == Processing
    ensures h.Response? && h.ok && ParsedReply(h).Some? && HasWorkflowError(ParsedReply(h).value) ==>
              o == WorkflowErrorOf(ParsedReply(h).value)
    ensures h.Response? && h.ok && ParsedReply(h).Some? && !HasWorkflowError(ParsedReply(h).value)
            && ReportedVerdict(ParsedReply(h).value).None? ==>
              o == AcknowledgedOf(ParsedReply(h).value)
  {
    match h
    case FetchRejected(name, message) => SubmissionFailed(ClassifyFailureAsWritten(name, message))
    case Response(ok, status, statusText, _, _, _) =>
      if !ok then SubmissionFailed(ClassifyFailureAsWritten("Error", HttpErrorMessage(status, statusText)))
      else
        match ParsedReply(h)
        case None => Processing
        case Some(w) =>
          if HasWorkflowError(w) then WorkflowErrorOf(w)
          else
            match ReportedVerdict(w)
            case Some(v) => Resolved(DisplayVerdict(v, HasActualIssues(w)), v, TotalIssues(w), Issues(w), Feedback(w), ProcessingTime(w))
            case None => AcknowledgedOf(w)
  }

  /** The checks before the POST pass: no slot missing, a URL, and no loopback URL from a deployed page. */
  predicate DispatchReached(keys: set<string>, configUrl: Option<string>, fallback: string, loc: Location) {
    var url := ResolveWebhookUrl(configUrl, fallback);
    MissingSlots(keys) == [] && url != "" && !(IsProductionHost(loc) && IsLoopbackUrl(url))
  }

  /** `handleSubmit`, from its inputs to the outcome it shows. */
  function ClassifySubmission(keys: set<string>, configUrl: Option<string>, fallback: string, loc: Location, h: HttpResult)
    : (o: SubmitOutcome)
    ensures MissingSlots(keys) != [] <==> o.MissingPhotos?
    ensures o.MissingPhotos? ==> o.missing == MissingSlots(keys)
    ensures DispatchReached(keys, configUrl, fallback, loc) ==> o == ClassifyResponse(h)
  {
    var missing := MissingSlots(keys);
    if missing != [] then MissingPhotos(missing)
    else
      var url := ResolveWebhookUrl(configUrl, fallback);
      if url == "" then WebhookNotConfigured
      else if IsProductionHost(loc) && IsLoopbackUrl(url) then LocalhostInProduction(url)
      else ClassifyResponse(h)
  }

  /** The outcomes after which the form is reset and the saved slots are dropped. */
  predicate ClearsSession(o: SubmitOutcome) {
    o.Resolved? || o.Acknowledged? || o.Processing?
  }

  // ---------------------------------------------------------------------------
  // Properties of the ladder
  // ---------------------------------------------------------------------------

  /** The outcomes decided before the POST. */
  predicate DecidedBeforeDispatch(o: SubmitOutcome) {
    o.MissingPhotos? || o.WebhookNotConfigured? || o.LocalhostInProduction?
  }

  /** The request is sent exactly when the three guards pass; before that, what the network would do is irrelevant. */
  lemma DispatchIffGuardsPass(keys: set<string>, configUrl: Option<string>, fallback: string, loc: Location, h: HttpResult, h': HttpResult)
    ensures !DecidedBeforeDispatch(ClassifySubmission(keys, configUrl, fallback, loc, h)) <==> DispatchReached(keys, configUrl, fallback, loc)
    ensures !DispatchReached(keys, configUrl, fallback, loc) ==>
              ClassifySubmission(keys, configUrl, fallback, loc, h) == ClassifySubmission(keys, configUrl, fallback, loc, h')
  {
  }

  /** With every slot filled, a missing URL is reported only when both the configured and the constructor URL are empty. */
  lemma NotConfiguredOnlyWithoutUrls(keys: set<string>, configUrl: Option<string>, fallback: string, loc: Location, h: HttpResult)
    requires RequiredSet() <= keys
    ensures ClassifySubmission(keys, configUrl, fallback, loc, h) == WebhookNotConfigured <==> !NonEmpty(configUrl) && fallback == ""
  {
    MissingEmptyIffComplete(keys);
  }

  /** The constructor's default URL is a loopback URL. */
  lemma DefaultUrlIsLoopback()
    ensures IsLoopbackUrl(DefaultWebhookUrl)
  {
    assert OccursAt(DefaultWebhookUrl, "localhost", 7);
    ContainsSlice(DefaultWebhookUrl, "localhost", 7);
  }

  /** On a deployed page with no configured URL, the constructor default is refused before anything is sent. */
  lemma DefaultUrlBlockedInProduction(keys: set<string>, configUrl: Option<string>, loc: Location, h: HttpResult)
    requires RequiredSet() <= keys
    requires !NonEmpty(configUrl) && IsProductionHost(loc)
    ensures ClassifySubmission(keys, configUrl, ConstructorWebhookUrl(configUrl), loc, h) == LocalhostInProduction(DefaultWebhookUrl)
  {
    MissingEmptyIffComplete(keys);
    DefaultUrlIsLoopback();
  }

  /** The parse gate: an empty body is never parsed; a non-empty JSON-typed one, or one that opens with `{` after blanks, is. */
  lemma ParseGate(contentType: string, text: string)
    ensures text == "" ==> !ShouldParse(contentType, text)
    ensures text != "" && Contains(contentType, "application/json") ==> ShouldParse(contentType, text)
    ensures TrimStart(text) != "" && TrimStart(text)[0] == '{' ==> ShouldParse(contentType, text)
  {
    TrimmedStartsWith(text, '{');
  }

  /** A body that is skipped or fails to parse shows the same processing view as an empty one. */
  lemma UnparsedBodyIsProcessing(h: HttpResult)
    requires h.Response? && h.ok
    requires h.parse == ParseFailed || BodyText(h.body) == ""
    ensures ClassifyResponse(h) == Processing
  {
  }

  /** A result is shown exactly when the reply parsed, carries no error marker and names a known status. */
  lemma ResolvedExactly(h: HttpResult)
    ensures ClassifyResponse(h).Resolved? <==>
              h.Response? && h.ok && ParsedReply(h).Some? && !HasWorkflowError(ParsedReply(h).value)
              && ReportedVerdict(ParsedReply(h).value).Some?
    ensures ClassifyResponse(h).Resolved? ==>
              var w := ParsedReply(h).value;
              ClassifyResponse(h).reported == ReportedVerdict(w).value
              && ClassifyResponse(h).verdict == DisplayVerdict(ReportedVerdict(w).value, HasActualIssues(w))
              && ClassifyResponse(h).totalIssues == TotalIssues(w) && ClassifyResponse(h).issues == Issues(w)
              && ClassifyResponse(h).feedback == Feedback(w) && ClassifyResponse(h).processingTime == ProcessingTime(w)
  {
  }

  /** An error marker wins over any status the reply also carries, including "pass". */
  lemma ErrorMarkerBeatsStatus(h: HttpResult)
    requires h.Response? && h.ok && ParsedReply(h).Some?
    requires Present(ParsedReply(h).value.error) && ParsedReply(h).value.status == Some(JsString("pass"))
    ensures ClassifyResponse(h).WorkflowFailed?
  {
  }

  /** A pass is shown only for a reply with no listed issues, no positive count, and no feedback other than a "clean" one. */
  lemma PassMeansClean(h: HttpResult)
    requires ClassifyResponse(h).Resolved? && ClassifyResponse(h).verdict == Pass
    ensures var w := ParsedReply(h).value;
      ReportedVerdict(w) == Some(Pass) && Issues(w) == [] && TotalIssues(w) <= 0
      && (Feedback(w) == "" || ContainsIgnoringCase(Feedback(w), "clean"))
  {
    ResolvedExactly(h);
  }

  /** Only a pass is ever downgraded, and only to review_needed. */
  lemma DowngradeOnlyFromPass(h: HttpResult)
    requires ClassifyResponse(h).Resolved?
    ensures ClassifyResponse(h).verdict != ClassifyResponse(h).reported ==>
              ClassifyResponse(h).reported == Pass && ClassifyResponse(h).verdict == ReviewNeeded
  {
    ResolvedExactly(h);
  }

  /** The form is reset exactly after a 2xx response that is not a workflow error. */
  lemma ClearsExactlyOnSuccess(keys: set<string>, configUrl: Option<string>, fallback: string, loc: Location, h: HttpResult)
    ensures ClearsSession(ClassifySubmission(keys, configUrl, fallback, loc, h)) <==>
              DispatchReached(keys, configUrl, fallback, loc) && h.Response? && h.ok
              && (ParsedReply(h).None? || !HasWorkflowError(ParsedReply(h).value))
  {
  }

  // ---------------------------------------------------------------------------
  // The request's timeout
  // ---------------------------------------------------------------------------

  /** What `abortController` holds: the signal `AbortSignal.timeout` returns, or a controller aborted by a timer. */
  datatype TimeoutSetup = TimeoutSignal | TimerController

  /** The signal handed to `fetch`, and the name of the error it rejects with after 30 seconds. */
  datatype AttachedSignal = NoSignal | Aborts(errorName: string)

  /** The timeout API is used whenever the browser has it. */
  function TimeoutSetupFor(hasSignalTimeout: bool): (t: TimeoutSetup)
    ensures t == TimeoutSignal <==> hasSignalTimeout
  {
    if hasSignalTimeout then TimeoutSignal else TimerController
  }

  /**
   * `abortController.signal`, as written: a controller's signal aborts with an
   * "AbortError", but an AbortSignal has no `signal` property, so with the timeout
   * API nothing is attached and the request never times out.
   */
  function PassedSignalAsWritten(t: TimeoutSetup): (r: AttachedSignal)
    ensures r == NoSignal <==> t == TimeoutSignal
  {
    match t
    case TimeoutSignal => NoSignal
    case TimerController => Aborts("AbortError")
  }

  /** The intended signal: the timeout signal itself, which rejects with a "TimeoutError", or the controller's. */
  function PassedSignal(t: TimeoutSetup): (r: AttachedSignal)
    ensures r != NoSignal
    ensures t == TimeoutSignal ==> r.errorName == "TimeoutError"
    ensures t == TimerController ==> r == PassedSignalAsWritten(t)
  {
    match t
    case TimeoutSignal => Aborts("TimeoutError")
    case TimerController => Aborts("AbortError")
  }

  /** As written, a browser with `AbortSignal.timeout` sends the request with no timeout at all. */
  lemma NoTimeoutWithSignalApi()
    ensures PassedSignalAsWritten(TimeoutSetupFor(true)) == NoSignal
    ensures PassedSignal(TimeoutSetupFor(true)) != NoSignal
  {
  }

  /** With the intended signal, every timeout is reported as one, whatever message the browser gives. */
  lemma EveryTimeoutReported(hasSignalTimeout: bool, message: string)
    ensures ClassifyFailure(PassedSignal(TimeoutSetupFor(hasSignalTimeout)).errorName, message).kind == TimedOut
  {
  }

  /**
   * The timeout signal rejects with a "TimeoutError" whose message ("signal timed out")
   * lacks the word "timeout", so the written catch block files it as a generic failure;
   * the corrected classification reports it as a timeout.
   */
  lemma TimeoutErrorMisclassified(name: string, message: string)
    requires name == "TimeoutError" && message == "signal timed out"
    ensures ClassifyFailureAsWritten(name, message).kind == OtherFailure
    ensures ClassifyResponse(FetchRejected(name, message)) == SubmissionFailed(Failure(OtherFailure, message, ""))
    ensures ClassifyFailure(name, message).kind == TimedOut
  {
    TimeoutMessageUnrecognised(message);
  }

  /** The browser's timeout message contains none of the three phrases the catch block looks for. */
  lemma TimeoutMessageUnrecognised(m: string)
    requires m == "signal timed out"
    ensures !Contains(m, "timeout") && !Contains(m, "Failed to fetch") && !Contains(m, "CORS")
  {
    forall j | 0 <= j < |m| - 1 ensures !(m[j] == 'e' && m[j + 1] == 'o') {
      if m[j] == 'e' { assert j == 10; }
    }
    MissingPairNotContained(m, "timeout", 3);
    MissingPairNotContained(m, "Failed to fetch", 0);
    MissingPairNotContained(m, "CORS", 0);
  }
}
