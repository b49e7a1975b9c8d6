/** The contact form's POST handler: required-field check, email-format check, mail configuration
    check, the outgoing message, and the mapping of failures to JSON responses. Parsing the request
    body and SendGrid's `send` are not modelled; their outcomes are inputs. */
module ContactRoute {
  import opened Wrappers
  import opened JsStrings
  import opened JsValues

  /** The four fields destructured from the request body; `None` is a missing or null field. */
  datatype ContactForm = ContactForm(
    name: Option<string>,
    email: Option<string>,
    subject: Option<string>,
    message: Option<string>)

  /** `SENDGRID_API_KEY` and `FROM_EMAIL` from the environment. */
  datatype MailConfig = MailConfig(sendGridApiKey: Option<string>, fromEmail: Option<string>)

  /** The message handed to SendGrid. The HTML body is represented by the two submitted values it shows
      besides the email and subject: the sender's name and message. */
  datatype Mail = Mail(
    to: string,
    from: string,
    subject: string,
    replyTo: string,
    senderName: string,
    text: string)

  datatype ResponseBody = ErrorBody(error: string) | MessageBody(message: string)

  /** `NextResponse.json(body, { status })`. */
  datatype JsonResponse = JsonResponse(status: nat, body: ResponseBody)

  /** What one POST does: the response, and the mail passed to `send`, if the handler got that far. */
  datatype PostResult = PostResult(response: JsonResponse, sent: Option<Mail>)

  const SubjectPrefix: string := "Portfolio Contact: "

  // ----- email format ------------------------------------------------------------------------

  /** A character of the class `[^\s@]`. */
  predicate Plain(c: char) {
    !IsWhitespace(c) && c != '@'
  }

  /** `[^\s@]+` matched against the whole of `t`. */
  predicate PlainRun(t: string) {
    t != [] && forall i :: 0 <= i < |t| ==> Plain(t[i])
  }

  /** The language of `/^[^\s@]+@[^\s@]+\.[^\s@]+$/`: a plain run, `@`, a plain run, `.`, a plain run,
      covering the whole string. */
  ghost predicate MatchesEmailPattern(s: string) {
    exists at, dot | 0 <= at < dot < |s| ::
      && s[at] == '@'
      && s[dot] == '.'
      && PlainRun(s[..at])
      && PlainRun(s[at + 1..dot])
      && PlainRun(s[dot + 1..])
  }

  /** The position of the first `c` in `s`. */
  function FirstIndex(s: string, c: char): (r: nat)
    requires c in s
    ensures r < |s| && s[r] == c
    ensures forall i :: 0 <= i < r ==> s[i] != c
  {
    if s[0] == c then 0 else FirstIndex(s[1..], c) + 1
  }

  /** `emailRegex.test(email)`, decided by the shape the pattern forces: no whitespace anywhere, exactly
      one `@`, not at the start, and a `.` in the domain that is neither its first nor its last
      character. */
  predicate EmailTest(s: string) {
    && (forall i | 0 <= i < |s| :: !IsWhitespace(s[i]))
    && '@' in s
    && var at := FirstIndex(s, '@');
      && 0 < at
      && (forall i | at < i < |s| :: s[i] != '@')
      && (exists d | at + 1 < d < |s| - 1 :: s[d] == '.')
  }

  /** Every string the characterisation accepts matches the regular expression. */
  lemma EmailTestMatches(s: string)
    requires EmailTest(s)
    ensures MatchesEmailPattern(s)
  {
    var at := FirstIndex(s, '@');
    var dot :| at + 1 < dot < |s| - 1 && s[dot] == '.';
    assert PlainRun(s[..at]);
    assert PlainRun(s[at + 1..dot]);
    assert PlainRun(s[dot + 1..]);
  }

  /** Every string the regular expression matches passes the characterisation. */
  lemma MatchPassesEmailTest(s: string, at: nat, dot: nat)
    requires at < dot < |s| && s[at] == '@' && s[dot] == '.'
    requires PlainRun(s[..at]) && PlainRun(s[at + 1..dot]) && PlainRun(s[dot + 1..])
    ensures EmailTest(s)
  {
    assert forall i :: 0 <= i < at ==> s[i] == s[..at][i];
    assert forall i :: at < i < dot ==> s[i] == s[at + 1..dot][i - at - 1];
    assert forall i :: dot < i < |s| ==> s[i] == s[dot + 1..][i - dot - 1];
    assert FirstIndex(s, '@') == at;
    assert |s[at + 1..dot]| > 0 && |s[dot + 1..]| > 0;
  }

  /** The characterisation accepts exactly the strings the regular expression matches. */
  lemma EmailTestIsPattern(s: string)
    ensures EmailTest(s) <==> MatchesEmailPattern(s)
  {
    if EmailTest(s) {
      EmailTestMatches(s);
    }
    if MatchesEmailPattern(s) {
      var at, dot :| 0 <= at < dot < |s| && s[at] == '@' && s[dot] == '.'
        && PlainRun(s[..at]) && PlainRun(s[at + 1..dot]) && PlainRun(s[dot + 1..]);
      MatchPassesEmailTest(s, at, dot);
    }
  }

  /** A minimal address passes. */
  lemma EmailAccepted()
    ensures EmailTest("a@b.c")
  {
    var ok := "a@b.c";
    assert FirstIndex(ok, '@') == 1;
    assert ok[3] == '.';
  }

  /** A domain without a dot fails. */
  lemma EmailWithoutDotRejected()
    ensures !EmailTest("a@bc")
  {
    assert FirstIndex("a@bc", '@') == 1;
  }

  /** An address with nothing before the `@` fails. */
  lemma EmailWithoutLocalPartRejected()
    ensures !EmailTest("@b.c")
  {
    assert FirstIndex("@b.c", '@') == 0;
  }

  /** An address with a second `@` fails. */
  lemma EmailWithTwoAtsRejected()
    ensures !EmailTest("a@b@c.d")
  {
    assert FirstIndex("a@b@c.d", '@') == 1;
    assert "a@b@c.d"[3] == '@';
  }

  // ----- the handler -------------------------------------------------------------------------

  /** `!name || !email || !subject || !message` fails. */
  predicate AllFieldsPresent(form: ContactForm) {
    TextTruthy(form.name) && TextTruthy(form.email) && TextTruthy(form.subject) && TextTruthy(form.message)
  }

  predicate Configured(config: MailConfig) {
    TextTruthy(config.sendGridApiKey) && TextTruthy(config.fromEmail)
  }

  /** The message sent to the site owner: to and from the configured address, the subject prefixed, and
      replies going to the submitter. */
  function OutgoingMail(form: ContactForm, fromEmail: string): Mail
    requires AllFieldsPresent(form)
  {
    Mail(fromEmail, fromEmail, SubjectPrefix + form.subject.value, form.email.value,
         form.name.value, form.message.value)
  }

  const GenericFailure: string := "Failed to send email"

  /** The `catch` of the handler as a table, tried top to bottom; it applies to `Error` instances only. */
  const FailureRules: seq<Rule> := [
    Rule(["Unauthorized"], "Email service authentication failed"),
    Rule(["Forbidden"], "Email service access denied")
  ]

  /** The response for anything thrown inside the handler. Every such response has status 500. */
  function FailureResponse(e: Thrown): (r: JsonResponse)
    ensures r.status == 500 && r.body.ErrorBody?
  {
    if e.ErrorObject? && Contains(e.message, "Unauthorized") then
      JsonResponse(500, ErrorBody("Email service authentication failed"))
    else if e.ErrorObject? && Contains(e.message, "Forbidden") then
      JsonResponse(500, ErrorBody("Email service access denied"))
    else
      JsonResponse(500, ErrorBody(GenericFailure))
  }

  /** An `Error` is answered with the first rule its message matches (`Unauthorized` before
      `Forbidden`), anything else with the generic text. */
  lemma FailureResponseIsFirstMatch(e: Thrown)
    ensures FailureResponse(e).body.error ==
      if e.ErrorObject? then FirstMatch(FailureRules, e.message, GenericFailure) else GenericFailure
  {
    var m := ThrownText(e);
    ContainsAnyOfOne(m, "Unauthorized");
    ContainsAnyOfOne(m, "Forbidden");
    var rules := FailureRules;
    assert rules[0].needles == ["Unauthorized"] && rules[1].needles == ["Forbidden"];
    var k := FirstRule(rules, m);
    assert k.Some? ==> k.value == 0 || k.value == 1;
  }

  /** `POST`. `body` is the outcome of `request.json()`, `config` the environment, `sendError` what
      `sgMail.send` throws, if anything (it is only consulted when the handler reaches the send). */
  function Post(body: Result<ContactForm, Thrown>, config: MailConfig, sendError: Option<Thrown>): (r: PostResult)
    ensures r.response.status in {200, 400, 500}
    // the checks come in order: fields, then email format, then configuration
    ensures body.Success? && !AllFieldsPresent(body.value) ==>
      r == PostResult(JsonResponse(400, ErrorBody("All fields are required")), None)
    ensures body.Success? && AllFieldsPresent(body.value) && !MatchesEmailPattern(body.value.email.value) ==>
      r == PostResult(JsonResponse(400, ErrorBody("Invalid email format")), None)
    ensures body.Success? && AllFieldsPresent(body.value) && MatchesEmailPattern(body.value.email.value)
            && !Configured(config) ==>
      r == PostResult(JsonResponse(500, ErrorBody("Email service not configured")), None)
    // a mail goes out exactly when every check passed, and it is the one built from the form
    ensures r.sent.Some? <==>
      body.Success? && AllFieldsPresent(body.value) && MatchesEmailPattern(body.value.email.value) && Configured(config)
    ensures r.sent.Some? ==>
      && r.sent.value.to == config.fromEmail.value
      && r.sent.value.from == config.fromEmail.value
      && r.sent.value.subject == SubjectPrefix + body.value.subject.value
      && r.sent.value.replyTo == body.value.email.value
    // success is reported exactly when the send did not throw
    ensures r.response.status == 200 <==> r.sent.Some? && sendError.None?
    ensures r.response.status == 200 ==> r.response.body == MessageBody("Email sent successfully")
    ensures r.sent.Some? && sendError.Some? ==> r.response == FailureResponse(sendError.value)
    ensures body.Failure? ==> r == PostResult(FailureResponse(body.error), None)
  {
    match body
    case Failure(e) => PostResult(FailureResponse(e), None)
    case Success(form) =>
      if !AllFieldsPresent(form) then
        PostResult(JsonResponse(400, ErrorBody("All fields are required")), None)
      else
        EmailTestIsPattern(form.email.value);
        if !EmailTest(form.email.value) then
          PostResult(JsonResponse(400, ErrorBody("Invalid email format")), None)
        else if !Configured(config) then
          PostResult(JsonResponse(500, ErrorBody("Email service not configured")), None)
        else
          var mail := OutgoingMail(form, config.fromEmail.value);
          match sendError
          case None => PostResult(JsonResponse(200, MessageBody("Email sent successfully")), Some(mail))
          case Some(e) => PostResult(FailureResponse(e), Some(mail))
  }

  /** A missing field is reported even when the email is malformed too, and even when mail is not
      configured: the field check comes first. */
  lemma MissingFieldWins(config: MailConfig, sendError: Option<Thrown>)
    ensures Post(Success(ContactForm(Some("Ann"), Some("not an email"), None, Some("hi"))), config, sendError).response
      == JsonResponse(400, ErrorBody("All fields are required"))
  {
  }

  /** A SendGrid error mentioning both `Unauthorized` and `Forbidden` is reported as an authentication
      failure, and a thrown value that is not an `Error` gets the generic text whatever it says. */
  lemma FailureExamples()
    ensures FailureResponse(ErrorObject("Unauthorized / Forbidden")).body.error == "Email service authentication failed"
    ensures FailureResponse(OtherValue("Unauthorized")).body.error == GenericFailure
  {
    ContainsPrefix("Unauthorized / Forbidden", "Unauthorized");
  }
}
