/**
 * The bug-report form (`src/components/ReportBug.tsx`) and the feature-suggestion
 * form (`src/components/SuggestFeature.tsx`): the same validators, the same
 * ordered checks with a different minimum length and wording, the request each
 * sends and how the reply becomes a message.
 */
module Validation {
  import opened Wrappers
  import opened Text

  // ---------------------------------------------------------------- validateEmail

  /** A non-empty run of `[^\s@]`. */
  predicate Plain(s: string) {
    s != [] && forall i :: 0 <= i < |s| ==> s[i] != '@' && !IsSpace(s[i])
  }

  /** `s` is `l@d.t` with each of `l`, `d` and `t` matching `[^\s@]+`. */
  ghost predicate EmailParts(s: string, l: string, d: string, t: string) {
    s == l + ['@'] + d + ['.'] + t && Plain(l) && Plain(d) && Plain(t)
  }

  /** `/^[^\s@]+@[^\s@]+\.[^\s@]+$/` matches `s`. */
  ghost predicate EmailRegex(s: string) {
    exists l, d, t :: EmailParts(s, l, d, t)
  }

  /** The only `@` of `s` is at `a`. */
  predicate OnlyAtSign(s: string, a: int) {
    0 <= a < |s| && s[a] == '@' && forall j :: 0 <= j < |s| && s[j] == '@' ==> j == a
  }

  /**
   * `validateEmail(email)`: no white space, exactly one `@` with text before it,
   * and after it a `.` with text on both sides.
   */
  predicate ValidEmail(s: string) {
    && NoSpace(s)
    && exists a | 0 < a < |s| :: OnlyAtSign(s, a) && exists k | a + 1 < k < |s| - 1 :: s[k] == '.'
  }

  /** The index form of `ValidEmail` agrees with the regular expression. */
  lemma EmailRegexIff(s: string)
    ensures ValidEmail(s) <==> EmailRegex(s)
  {
    if ValidEmail(s) {
      ValidEmailMatches(s);
    }
    if EmailRegex(s) {
      var l, d, t :| EmailParts(s, l, d, t);
      MatchIsValidEmail(s, l, d, t);
    }
  }

  lemma ValidEmailMatches(s: string)
    requires ValidEmail(s)
    ensures EmailRegex(s)
  {
    var a :| 0 < a < |s| && OnlyAtSign(s, a) && exists k | a + 1 < k < |s| - 1 :: s[k] == '.';
    var k :| a + 1 < k < |s| - 1 && s[k] == '.';
    var l, d, t := s[..a], s[a + 1..k], s[k + 1..];
    assert s == l + ['@'] + d + ['.'] + t;
    assert Plain(l) by {
      forall i | 0 <= i < |l| ensures l[i] != '@' && !IsSpace(l[i]) {
        assert l[i] == s[i];
      }
    }
    assert Plain(d) by {
      forall i | 0 <= i < |d| ensures d[i] != '@' && !IsSpace(d[i]) {
        assert d[i] == s[a + 1 + i];
      }
    }
    assert Plain(t) by {
      forall i | 0 <= i < |t| ensures t[i] != '@' && !IsSpace(t[i]) {
        assert t[i] == s[k + 1 + i];
      }
    }
    assert EmailParts(s, l, d, t);
  }

  lemma MatchIsValidEmail(s: string, l: string, d: string, t: string)
    requires EmailParts(s, l, d, t)
    ensures ValidEmail(s)
  {
    var a, k := |l|, |l| + 1 + |d|;
    assert forall j :: 0 <= j < a ==> s[j] == l[j];
    assert forall j :: a < j < k ==> s[j] == d[j - a - 1];
    assert forall j :: k < j < |s| ==> s[j] == t[j - k - 1];
    assert s[a] == '@' && s[k] == '.';
    assert NoSpace(s);
    assert OnlyAtSign(s, a);
    assert a + 1 < k < |s| - 1;
  }

  // ---------------------------------------------------------------- isGenericName

  const BannedNames: seq<string> := ["john", "test", "user", "admin", "foo", "bar", "abc"]

  /** `isGenericName(name)`, its checks in the source's order. */
  predicate IsGenericName(name: string) {
    if name == [] then true
    else
      var n := Lower(Trim(name));
      if Utf16Length(n) < 2 then true
      else if n in BannedNames then true
      else |Split(n, ' ')| == 1 && Utf16Length(n) <= 2
  }

  /**
   * A name is generic exactly when it is empty, its trimmed lower-cased form is at
   * most 2 long or it is one of the banned names: a trimmed string of length 2
   * holds no space, so the single-token test adds nothing.
   */
  lemma GenericNameIff(name: string)
    ensures IsGenericName(name) <==>
      name == [] || Utf16Length(Lower(Trim(name))) <= 2 || Lower(Trim(name)) in BannedNames
  {
    var r := Trim(name);
    var n := Lower(r);
    if name != [] && Utf16Length(n) == 2 {
      TrimFacts(name);
      LowerKeepsSpaces(r);
      assert 1 <= |n| <= 2;
      assert ' ' !in n by {
        forall i | 0 <= i < |n| ensures n[i] != ' ' {
          assert i == 0 || i == |r| - 1;
          assert !IsSpace(r[i]);
        }
      }
      SplitSingleIff(n, ' ');
    }
  }

  // ---------------------------------------------------------------- isSpamContent

  const SpamMarkers: seq<string> := ["http", "www.", ".com", "buy now", "subscribe"]

  /** `isSpamContent(text)`. */
  predicate IsSpamContent(text: string) {
    if text == [] then false
    else
      var s := Lower(text);
      if Contains(s, "http") || Contains(s, "www.") || Contains(s, ".com") || Contains(s, "buy now") || Contains(s, "subscribe")
      then true
      else Utf16Length(RemoveSpaces(s)) < 10
  }

  /**
   * The empty text is never spam; other text is spam exactly when, lower-cased,
   * it contains one of the markers or has fewer than 10 non-space characters.
   * Letter case does not matter.
   */
  lemma SpamContentIff(text: string)
    ensures text == [] ==> !IsSpamContent(text)
    ensures text != [] ==>
      (IsSpamContent(text) <==>
        (exists i :: 0 <= i < |SpamMarkers| && Contains(Lower(text), SpamMarkers[i]))
        || Utf16Length(RemoveSpaces(Lower(text))) < 10)
    ensures IsSpamContent(Lower(text)) == IsSpamContent(text)
  {
    LowerIdempotent(text);
    if text != [] {
      var s := Lower(text);
      if Contains(s, "http") { assert Contains(s, SpamMarkers[0]); }
      if Contains(s, "www.") { assert Contains(s, SpamMarkers[1]); }
      if Contains(s, ".com") { assert Contains(s, SpamMarkers[2]); }
      if Contains(s, "buy now") { assert Contains(s, SpamMarkers[3]); }
      if Contains(s, "subscribe") { assert Contains(s, SpamMarkers[4]); }
    }
  }

  // ---------------------------------------------------------------- the checks of handleSubmit

  datatype FormKind = BugReport | Suggestion

  /**
   * The form's fields: `text` is the description (bug) or the suggestion, `extra`
   * the steps to reproduce (bug) or the details (suggestion).
   */
  datatype Form = Form(name: string, email: string, text: string, extra: string)

  /** The minimum trimmed length of `text`. */
  function MinLength(kind: FormKind): nat {
    match kind
    case BugReport => 20
    case Suggestion => 10
  }

  /** What a failed check complains about. */
  datatype Problem = SpamDetected | RequiredFields | InvalidEmail | GenericName | TooShort | Promotional | NotDistinct

  /** The message a failed check shows, worded for the form. */
  function ProblemText(kind: FormKind, p: Problem): string {
    match p
    case SpamDetected => "Spam detected"
    case RequiredFields => "Please fill in all required fields"
    case InvalidEmail => "Please enter a valid email address"
    case GenericName => "Please provide your full name (avoid \"John\" or test values)"
    case TooShort =>
      if kind == BugReport then "Please provide a more detailed description (at least 20 characters)"
      else "Please provide a more detailed suggestion (at least 10 characters)"
    case Promotional =>
      if kind == BugReport then
        "Your description looks like promotional content or contains links. Please provide a clear bug description without promotional text."
      else
        "Your suggestion looks like promotional content or contains links. Please provide a clear feature suggestion without promotional text."
    case NotDistinct =>
      if kind == BugReport then "Please provide distinct, meaningful values for name and description"
      else "Please provide distinct, meaningful values for name and suggestion"
  }

  /** The honeypot field is empty once trimmed. */
  predicate HoneypotEmpty(hp: string) {
    Trim(hp) == []
  }

  /** Name, email and text are all non-empty once trimmed. */
  predicate RequiredPresent(f: Form) {
    Trim(f.name) != [] && Trim(f.email) != [] && Trim(f.text) != []
  }

  /** The trimmed email is valid. */
  predicate EmailOk(f: Form) {
    ValidEmail(Trim(f.email))
  }

  /** The trimmed name is not a generic one. */
  predicate NameOk(f: Form) {
    !IsGenericName(Trim(f.name))
  }

  /** The trimmed text has at least the form's minimum length. */
  predicate LongEnough(kind: FormKind, f: Form) {
    Utf16Length(Trim(f.text)) >= MinLength(kind)
  }

  /** The trimmed text is not spam. */
  predicate NotSpam(f: Form) {
    !IsSpamContent(Trim(f.text))
  }

  /** The lower-cased trimmed name differs from the text and from the extra field. */
  predicate Distinct(f: Form) {
    var name := Lower(Trim(f.name));
    name != Lower(Trim(f.text)) && name != Lower(Trim(f.extra))
  }

  /** The early-return checks of `handleSubmit`: the message of the first that fails, `None` when all pass. */
  function Validate(kind: FormKind, hp: string, f: Form): Option<Problem> {
    if !HoneypotEmpty(hp) then Some(SpamDetected)
    else if !RequiredPresent(f) then Some(RequiredFields)
    else if !EmailOk(f) then Some(InvalidEmail)
    else if !NameOk(f) then Some(GenericName)
    else if !LongEnough(kind, f) then Some(TooShort)
    else if !NotSpam(f) then Some(Promotional)
    else if !Distinct(f) then Some(NotDistinct)
    else None
  }

  /** The number of checks. */
  const Checks := 7

  /** Whether each check passes, in the fixed order. */
  function Outcomes(kind: FormKind, hp: string, f: Form): (r: seq<bool>)
    ensures |r| == Checks
  {
    [HoneypotEmpty(hp), RequiredPresent(f), EmailOk(f), NameOk(f), LongEnough(kind, f), NotSpam(f), Distinct(f)]
  }

  predicate Passes(kind: FormKind, hp: string, f: Form, i: nat)
    requires i < Checks
  {
    Outcomes(kind, hp, f)[i]
  }

  /** What check `i` complains about when it fails. */
  function CheckProblem(i: nat): Problem
    requires i < Checks
  {
    match i
    case 0 => SpamDetected
    case 1 => RequiredFields
    case 2 => InvalidEmail
    case 3 => GenericName
    case 4 => TooShort
    case 5 => Promotional
    case _ => NotDistinct
  }

  /** The index of the first check that fails, `Checks` when none does. */
  function FirstFailing(o: seq<bool>): (first: nat)
    requires |o| == Checks
    ensures first <= Checks
    ensures forall j :: 0 <= j < first ==> o[j]
    ensures first < Checks ==> !o[first]
  {
    if !o[0] then 0
    else if !o[1] then 1
    else if !o[2] then 2
    else if !o[3] then 3
    else if !o[4] then 4
    else if !o[5] then 5
    else if !o[6] then 6
    else Checks
  }

  /** The complaint of the first failing check, `None` when every check passes. */
  function Verdict(o: seq<bool>): Option<Problem>
    requires |o| == Checks
  {
    var first := FirstFailing(o);
    if first < Checks then Some(CheckProblem(first)) else None
  }

  /** `Validate` reports the complaint of the first failing check, one check at a time. */
  lemma ValidateIsFirstFailing(kind: FormKind, hp: string, f: Form)
    ensures Validate(kind, hp, f) == Verdict(Outcomes(kind, hp, f))
  {
    VerdictChain(HoneypotEmpty(hp), RequiredPresent(f), EmailOk(f), NameOk(f), LongEnough(kind, f), NotSpam(f), Distinct(f));
  }

  /** The verdict of seven outcomes is the early-return chain over them. */
  lemma VerdictChain(b0: bool, b1: bool, b2: bool, b3: bool, b4: bool, b5: bool, b6: bool)
    ensures Verdict([b0, b1, b2, b3, b4, b5, b6]) ==
      if !b0 then Some(SpamDetected)
      else if !b1 then Some(RequiredFields)
      else if !b2 then Some(InvalidEmail)
      else if !b3 then Some(GenericName)
      else if !b4 then Some(TooShort)
      else if !b5 then Some(Promotional)
      else if !b6 then Some(NotDistinct)
      else None
  {
    var o := [b0, b1, b2, b3, b4, b5, b6];
    assert o[0] == b0 && o[1] == b1 && o[2] == b2 && o[3] == b3 && o[4] == b4 && o[5] == b5 && o[6] == b6;
  }

  /** Check `k` is the first failing one exactly when it fails and every earlier check passes. */
  lemma FirstFailingIff(o: seq<bool>, k: nat)
    requires |o| == Checks && k < Checks
    ensures FirstFailing(o) == k <==> !o[k] && forall j :: 0 <= j < k ==> o[j]
  {
    if k < FirstFailing(o) {
      assert o[k];
    }
  }

  /** Distinct checks complain about distinct problems. */
  lemma CheckProblemInjective(i: nat, k: nat)
    requires i < Checks && k < Checks
    ensures CheckProblem(i) == CheckProblem(k) <==> i == k
  {
  }

  /** A form is accepted exactly when every check passes. */
  lemma ValidateAccepts(kind: FormKind, hp: string, f: Form)
    ensures Validate(kind, hp, f).None? <==> forall i :: 0 <= i < Checks ==> Passes(kind, hp, f, i)
  {
    ValidateIsFirstFailing(kind, hp, f);
    var o := Outcomes(kind, hp, f);
    assert forall i :: 0 <= i < Checks ==> (Passes(kind, hp, f, i) <==> o[i]);
  }

  /**
   * The first failing check decides the message: `Validate` gives the complaint of
   * check `k` exactly when check `k` fails and every earlier check passes.
   */
  lemma ValidateFirstFailure(kind: FormKind, hp: string, f: Form, k: nat)
    requires k < Checks
    ensures Validate(kind, hp, f) == Some(CheckProblem(k)) <==>
      !Passes(kind, hp, f, k) && forall j :: 0 <= j < k ==> Passes(kind, hp, f, j)
  {
    ValidateIsFirstFailing(kind, hp, f);
    var o := Outcomes(kind, hp, f);
    FirstFailingIff(o, k);
    if FirstFailing(o) < Checks {
      CheckProblemInjective(FirstFailing(o), k);
    }
    assert forall j :: 0 <= j < Checks ==> (Passes(kind, hp, f, j) <==> o[j]);
  }

  // ---------------------------------------------------------------- the request and the reply

  const ApiBaseUrl := "http://192.168.0.251:3001"

  function Endpoint(kind: FormKind): string {
    match kind
    case BugReport => ApiBaseUrl + "/api/bug-reports"
    case Suggestion => ApiBaseUrl + "/api/add-suggestion"
  }

  /** The multipart form sent by `handleSubmit`; `hp` only when the honeypot is non-empty. */
  datatype Payload = Payload(
    endpoint: string,
    name: string,
    email: string,
    description: string,
    stepsToReproduce: string,
    browserInfo: string,
    timestamp: string,
    hp: Option<string>)

  /** `getBrowserInfo()`: the first matching browser and system in the user-agent string. */
  function BrowserInfo(ua: string): string {
    var browser :=
      if Contains(ua, "Chrome") && !Contains(ua, "Edg") then "Chrome"
      else if Contains(ua, "Firefox") then "Firefox"
      else if Contains(ua, "Safari") && !Contains(ua, "Chrome") then "Safari"
      else if Contains(ua, "Edg") then "Edge"
      else "Unknown";
    var os :=
      if Contains(ua, "Windows") then "Windows"
      else if Contains(ua, "Mac") then "macOS"
      else if Contains(ua, "Linux") then "Linux"
      else if Contains(ua, "Android") then "Android"
      else if Contains(ua, "iOS") then "iOS"
      else "Unknown";
    browser + " on " + os
  }

  /**
   * The request for a validated form: the fields as typed (untrimmed); for a
   * suggestion, `suggestion` goes as `description` and `details` as `stepsToReproduce`.
   */
  function PayloadFor(kind: FormKind, f: Form, hp: string, userAgent: string, timestamp: string): (p: Payload)
    ensures p.endpoint == Endpoint(kind) && p.name == f.name && p.email == f.email
    ensures p.description == f.text && p.stepsToReproduce == f.extra
    ensures p.hp.Some? <==> hp != []
  {
    Payload(Endpoint(kind), f.name, f.email, f.text, f.extra, BrowserInfo(userAgent), timestamp,
      if hp != [] then Some(hp) else None)
  }

  /** The parsed JSON body of a reply. */
  datatype ReplyBody = ReplyBody(error: Option<string>, id: Option<string>)

  /**
   * What `apiRequest` gives back: a network failure (the thrown error's message), or
   * a response whose body parsed, or failed to parse with the given message.
   */
  datatype Reply =
    | NetworkFailure(message: string)
    | Response(ok: bool, status: int, body: Result<ReplyBody, string>)

  /** `errorData.error`, where a body that does not parse reads as `{ error: 'Unknown error occurred' }`. */
  function ErrorField(body: Result<ReplyBody, string>): Option<string> {
    if body.Err? then Some("Unknown error occurred") else body.value.error
  }

  /** `x || fallback` for an optional string. */
  function OrElse(x: Option<string>, fallback: string): (r: string)
    ensures r != [] ==> r == fallback || x == Some(r)
    ensures fallback != [] ==> r != []
  {
    if x.Some? && x.value != [] then x.value else fallback
  }

  predicate Mentions(err: Option<string>, t: string) {
    err.Some? && Contains(err.value, t)
  }

  function FlaggedMessage(kind: FormKind): string {
    match kind
    case BugReport =>
      "\U{26A0}\U{FE0F} Your submission was flagged as spam or inappropriate content.\n\nPlease:\n\U{2022} Use professional language\n\U{2022} Provide genuine bug details\n\U{2022} Avoid promotional content\n\U{2022} Try rewording your description"
    case Suggestion =>
      "\U{26A0}\U{FE0F} Your submission was flagged as spam or inappropriate content.\n\nPlease:\n\U{2022} Use professional language\n\U{2022} Provide genuine suggestions\n\U{2022} Avoid promotional content\n\U{2022} Try rewording your suggestion"
  }

  function RateLimited(kind: FormKind): string {
    match kind
    case BugReport =>
      "\U{1F6AB} Too many submissions detected.\n\nPlease wait before submitting another report.\nThis helps prevent spam and abuse."
    case Suggestion =>
      "\U{1F6AB} Too many submissions detected.\n\nPlease wait before submitting another suggestion.\nThis helps prevent spam and abuse."
  }

  const ServerError := "Server error occurred. Please try again in a few minutes."

  function Noun(kind: FormKind): string {
    match kind
    case BugReport => "bug report"
    case Suggestion => "feature suggestion"
  }

  /**
   * The message for a reply that is not `ok`, from its status and `errorData.error`.
   * A 429 or 500 status decides the message whatever the body says.
   */
  function FailureMessage(kind: FormKind, status: int, err: Option<string>): (m: string)
    ensures status == 429 ==> m == RateLimited(kind)
    ensures status == 500 ==> m == ServerError
    ensures status == 400 && (Mentions(err, "spam") || Mentions(err, "inappropriate")) ==> m == FlaggedMessage(kind)
  {
    if status == 400 then
      if Mentions(err, "spam") || Mentions(err, "inappropriate") then FlaggedMessage(kind)
      else if Mentions(err, "Missing required fields") then "Please fill in all required fields before submitting."
      else OrElse(err, "Invalid submission. Please check your input.")
    else if status == 429 then RateLimited(kind)
    else if status == 500 then ServerError
    else OrElse(err, "Error " + IntToString(status) + ": Failed to submit " + Noun(kind) + ".")
  }

  /** A 429 reply shows the rate-limit message whatever its body, parsed or not. */
  lemma RateLimitIgnoresBody(kind: FormKind, b1: Result<ReplyBody, string>, b2: Result<ReplyBody, string>)
    ensures FailureMessage(kind, 429, ErrorField(b1)) == FailureMessage(kind, 429, ErrorField(b2)) == RateLimited(kind)
  {
  }

  datatype Outcome = Accepted(id: string) | Rejected(message: string)

  /**
   * What a reply comes to: its id on success (`""` when the body has none), the
   * thrown error's message otherwise.
   */
  function ReplyOutcome(kind: FormKind, reply: Reply): (o: Outcome)
    ensures o.Accepted? <==> reply.Response? && reply.ok && reply.body.Ok?
    ensures reply.Response? && !reply.ok ==> o == Rejected(FailureMessage(kind, reply.status, ErrorField(reply.body)))
    ensures reply.NetworkFailure? ==> o == Rejected(reply.message)
  {
    match reply
    case NetworkFailure(m) => Rejected(m)
    case Response(ok, status, body) =>
      if ok then
        if body.Ok? then Accepted(body.value.id.GetOr("")) else Rejected(body.error)
      else Rejected(FailureMessage(kind, status, ErrorField(body)))
  }

  // ---------------------------------------------------------------- the form component

  datatype Field = NameField | EmailField | TextField | ExtraField

  function SetField(f: Form, field: Field, value: string): (g: Form)
    ensures field == NameField ==> g == f.(name := value)
    ensures field == EmailField ==> g == f.(email := value)
    ensures field == TextField ==> g == f.(text := value)
    ensures field == ExtraField ==> g == f.(extra := value)
  {
    match field
    case NameField => f.(name := value)
    case EmailField => f.(email := value)
    case TextField => f.(text := value)
    case ExtraField => f.(extra := value)
  }

  /** The state of either form component, with the requests it has sent. */
  class FeedbackForm {
    const kind: FormKind
    var form: Form
    var errorMessage: string
    var isSubmitting: bool
    var showSuccess: bool
    var submissionId: string
    var requests: seq<Payload>

    constructor (kind: FormKind)
      ensures this.kind == kind && form == Form("", "", "", "")
      ensures errorMessage == "" && !isSubmitting && !showSuccess && submissionId == "" && requests == []
    {
      this.kind := kind;
      form := Form("", "", "", "");
      errorMessage := "";
      isSubmitting := false;
      showSuccess := false;
      submissionId := "";
      requests := [];
    }

    /** `handleChange`: one field takes the typed value and a shown error is cleared. */
    method HandleChange(field: Field, value: string)
      modifies this
      ensures form == SetField(old(form), field, value) && errorMessage == ""
      ensures isSubmitting == old(isSubmitting) && showSuccess == old(showSuccess)
      ensures submissionId == old(submissionId) && requests == old(requests)
    {
      form := SetField(form, field, value);
      if errorMessage != "" {
        errorMessage := "";
      }
    }

    /**
     * `handleSubmit` with the honeypot's content, the user agent, the timestamp and
     * the reply the request gets. A request is sent exactly when every check
     * passes; a failed check only sets its message.
     */
    method HandleSubmit(hp: string, userAgent: string, timestamp: string, reply: Reply)
      modifies this
      ensures form == old(form)
      ensures Validate(kind, hp, form).Some? ==>
        && errorMessage == ProblemText(kind, Validate(kind, hp, form).value)
        && requests == old(requests) && isSubmitting == old(isSubmitting)
        && showSuccess == old(showSuccess) && submissionId == old(submissionId)
      ensures Validate(kind, hp, form).None? ==>
        && requests == old(requests) + [PayloadFor(kind, form, hp, userAgent, timestamp)]
        && !isSubmitting
        && Shows(ReplyOutcome(kind, reply), old(showSuccess), old(submissionId))
    {
      errorMessage := "";
      var check := Validate(kind, hp, form);
      if check.Some? {
        errorMessage := ProblemText(kind, check.value);
        return;
      }
      Send(hp, userAgent, timestamp, reply);
    }

    /** What the form shows once the reply is in: the success screen, or the error with the rest as before. */
    ghost predicate Shows(outcome: Outcome, showSuccess0: bool, submissionId0: string)
      reads this
    {
      match outcome
      case Accepted(id) => showSuccess && submissionId == id && errorMessage == ""
      case Rejected(m) => errorMessage == m && showSuccess == showSuccess0 && submissionId == submissionId0
    }

    /** The part of `handleSubmit` after the checks: the request goes out and the reply is shown. */
    method Send(hp: string, userAgent: string, timestamp: string, reply: Reply)
      requires errorMessage == ""
      modifies this
      ensures form == old(form)
      ensures requests == old(requests) + [PayloadFor(kind, form, hp, userAgent, timestamp)]
      ensures !isSubmitting
      ensures Shows(ReplyOutcome(kind, reply), old(showSuccess), old(submissionId))
    {
      isSubmitting := true;
      requests := requests + [PayloadFor(kind, form, hp, userAgent, timestamp)];
      var outcome := ReplyOutcome(kind, reply);
      match outcome {
        case Accepted(id) =>
          submissionId := id;
          showSuccess := true;
        case Rejected(m) =>
          errorMessage := m;
      }
      isSubmitting := false;
    }
  }
}
