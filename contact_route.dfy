/** The contact relay endpoint (`POST /api/contact`): validates a submission
    against the server schema, answers 400 with the first issue, otherwise
    builds the email and hands it to the mail transport, and maps any thrown
    failure to a 500 answer.

    The mail transport is a collaborator: the model receives the outcome of its
    one send attempt as `send`, and records in `Outcome.mail` the email it was
    asked to send (`None` when no transport was created). */
module ContactRoute {
  import opened JsValues
  import opened Schema
  import opened Sanitize

  // ---------------------------------------------------------------------------
  // The server schema.

  const NameTooLong := "Name must be less than 100 characters"
  const EmailMalformed := "Please enter a valid email address"
  const EmailTooLong := "Email must be less than 100 characters"
  const MessageTooShort := "Message must be at least 10 characters"
  const MessageTooLong := "Message must be less than 1000 characters"

  const ServerRules: Rules := Rules(
    [MaxLength(100, NameTooLong)],
    [EmailFormat(EmailMalformed), MaxLength(100, EmailTooLong)],
    [MinLength(10, MessageTooShort), MaxLength(1000, MessageTooLong)])

  /** The schema's verdict spelled out as a decision list: name, then email
      (format before length), then message (minimum before maximum). Lengths
      are JavaScript lengths in UTF-16 code units, and the bounds are
      inclusive: a length of 100 passes `max(100)` although the message says
      "less than 100". */
  function ExpectedIssue(name: string, email: string, message: string, isEmail: EmailGrammar): Option<string> {
    if JsLength(name) > 100 then Some(NameTooLong)
    else if !isEmail(email) then Some(EmailMalformed)
    else if JsLength(email) > 100 then Some(EmailTooLong)
    else if JsLength(message) < 10 then Some(MessageTooShort)
    else if JsLength(message) > 1000 then Some(MessageTooLong)
    else None
  }

  lemma ServerStringIssues(name: string, email: string, message: string, isEmail: EmailGrammar)
    ensures StringIssue(ServerRules.name, name, isEmail) == (if JsLength(name) > 100 then Some(NameTooLong) else None)
    ensures StringIssue(ServerRules.email, email, isEmail) ==
      (if !isEmail(email) then Some(EmailMalformed) else if JsLength(email) > 100 then Some(EmailTooLong) else None)
    ensures StringIssue(ServerRules.message, message, isEmail) ==
      (if JsLength(message) < 10 then Some(MessageTooShort) else if JsLength(message) > 1000 then Some(MessageTooLong) else None)
  {
    var n, e, m := ServerRules.name, ServerRules.email, ServerRules.message;
    assert n[1..] == [] && e[1..][1..] == [] && m[1..][1..] == [];
    assert FirstFailing(e[1..], email, isEmail) == if JsLength(email) > 100 then Some(0) else None;
    assert FirstFailing(m[1..], message, isEmail) == if JsLength(message) > 1000 then Some(0) else None;
  }

  /** Lengths are JavaScript lengths: a character beyond the Basic Multilingual
      Plane (an emoji, say) counts twice. A name of 51 such characters is too
      long, and a message of 5 of them is long enough. */
  lemma AstralCharactersCountTwice(c: char, isEmail: EmailGrammar)
    requires c as int > 0xFFFF
    ensures StringIssue(ServerRules.name, seq(51, _ => c), isEmail) == Some(NameTooLong)
    ensures StringIssue(ServerRules.message, seq(5, _ => c), isEmail).None?
  {
    JsLengthRepeat(51, c);
    JsLengthRepeat(5, c);
    ServerStringIssues(seq(51, _ => c), "", seq(5, _ => c), isEmail);
  }

  /** Fail-fast validation of three strings reports exactly the first failing
      rule in field order. */
  lemma ServerFirstIssue(name: string, email: string, message: string, isEmail: EmailGrammar)
    ensures FirstStringIssue(ServerRules, name, email, message, isEmail) == ExpectedIssue(name, email, message, isEmail)
  {
    ServerStringIssues(name, email, message, isEmail);
  }

  /** Issues of an object body follow field order whatever the other fields
      hold: a name that is not a string, or is too long, is reported even when
      the email is missing. */
  lemma NameIssueReportedFirst(p: Payload, isEmail: EmailGrammar)
    requires p.Object?
    ensures !p.name.Str? ==> FirstIssue(ServerRules, p, isEmail) == Some(LibraryDefault(AtField(Name)))
    ensures p.name.Str? && JsLength(p.name.s) > 100 ==> FirstIssue(ServerRules, p, isEmail) == Some(Custom(NameTooLong))
  {
    if p.name.Str? {
      ServerStringIssues(p.name.s, "", "", isEmail);
    }
  }

  /** A submission passes iff all three fields are strings, the name has at most
      100 UTF-16 code units, the email is well formed with at most 100, and
      the message has between 10 and 1000. */
  lemma ServerAcceptsIff(p: Payload, isEmail: EmailGrammar)
    ensures Accepts(ServerRules, p, isEmail) <==>
      AllStrings(p) && JsLength(p.name.s) <= 100 && isEmail(p.email.s) && JsLength(p.email.s) <= 100
      && 10 <= JsLength(p.message.s) <= 1000
  {
    if AllStrings(p) {
      ServerFirstIssue(p.name.s, p.email.s, p.message.s, isEmail);
    }
  }

  // ---------------------------------------------------------------------------
  // The email.

  datatype MailOptions = MailOptions(from: string, to: string, replyTo: string, subject: string, html: string, text: string)

  const SubjectPrefix := "New Contact Form Submission - "

  /** The sender is the configured account under a fixed display name. */
  const SenderDisplayName := "\"Aladi Contact Form\" <"

  const HtmlBeforeName := "\n        <div style=\"font-family: Arial, sans-serif; max-width: 600px; margin: 0 auto;\">\n          <h2 style=\"color: #1a365d;\">New Contact Form Submission</h2>\n          <div style=\"margin: 20px 0; border-top: 2px solid #e2e8f0; padding-top: 20px;\">\n            <p><strong style=\"color: #2d3748;\">Name:</strong> "
  const HtmlBeforeEmailLink := "</p>\n            <p><strong style=\"color: #2d3748;\">Email:</strong> \n              <a href=\"mailto:"
  const HtmlBeforeEmailText := "\" \n                 style=\"color: #4299e1; text-decoration: none;\">\n                "
  const HtmlBeforeMessage := "\n              </a>\n            </p>\n            <div style=\"margin-top: 15px;\">\n              <strong style=\"color: #2d3748; display: block; margin-bottom: 10px;\">Message:</strong>\n              <div style=\"background: #f7fafc; padding: 15px; border-radius: 4px; border: 1px solid #e2e8f0;\">\n                "
  const HtmlAfterMessage := "\n              </div>\n            </div>\n          </div>\n          <p style=\"color: #718096; font-size: 0.9em; margin-top: 25px; border-top: 2px solid #e2e8f0; padding-top: 15px;\">\n            This message was sent from the contact form on aladi.ca\n          </p>\n        </div>\n      "

  /** Everything of the HTML body before the message slot: name and email
      are inserted as they are, without escaping. */
  function HtmlHead(name: string, email: string): string {
    HtmlBeforeName + name + HtmlBeforeEmailLink + email + HtmlBeforeEmailText + email + HtmlBeforeMessage
  }

  function TextHead(name: string, email: string): string {
    "New Contact Form Submission\n\n        Name: " + name + "\n\n        Email: " + email + "\n\n        Message:\n"
  }

  /** The mail options for a valid submission; `user` is the configured
      account, which is both the sender and the recipient. Replies go to the
      visitor. The HTML body holds the sanitised message in a slot after a head
      that does not depend on the message; the plain-text body ends with the
      raw message. */
  function BuildMail(user: string, name: string, email: string, message: string): (m: MailOptions)
    ensures m.to == user && m.replyTo == email
    ensures m.from == SenderDisplayName + user + ">"
    ensures m.subject == SubjectPrefix + name
    ensures var lo, body := |HtmlHead(name, email)|, SanitizeMessage(message);
      lo + |body| + |HtmlAfterMessage| == |m.html| && m.html[lo..lo + |body|] == body
    ensures |message| <= |m.text| && m.text[|m.text| - |message|..] == message
  {
    var head, body := HtmlHead(name, email), SanitizeMessage(message);
    var html := head + body + HtmlAfterMessage;
    assert html[|head|..|head| + |body|] == body;
    var text := TextHead(name, email) + message;
    assert text[|text| - |message|..] == message;
    MailOptions(
      from := SenderDisplayName + user + ">",
      to := user,
      replyTo := email,
      subject := SubjectPrefix + name,
      html := html,
      text := text)
  }

  /** Two messages with the same sanitised form give the same HTML body. */
  lemma HtmlDependsOnlyOnSanitized(user: string, name: string, email: string, m1: string, m2: string)
    requires SanitizeMessage(m1) == SanitizeMessage(m2)
    ensures BuildMail(user, name, email, m1).html == BuildMail(user, name, email, m2).html
    ensures m1 != m2 ==> BuildMail(user, name, email, m1).text != BuildMail(user, name, email, m2).text
  {
    var t1, t2 := BuildMail(user, name, email, m1).text, BuildMail(user, name, email, m2).text;
    if t1 == t2 {
      var h := TextHead(name, email);
      assert t1[|h|..] == m1;
      assert t2[|h|..] == m2;
    }
  }

  // ---------------------------------------------------------------------------
  // Error mapping.

  const InvalidLogin := "Invalid login"
  const EmailConfigurationError := "Email configuration error"
  const InternalServerError := "Internal server error"

  lemma GenericMessagesHideLogin()
    ensures !Contains(EmailConfigurationError, InvalidLogin)
    ensures !Contains(InternalServerError, InvalidLogin)
  {
    NoOccurrenceWithoutLead(EmailConfigurationError, InvalidLogin, 0);
    var s := InternalServerError;
    assert s[0..|InvalidLogin|][2] != InvalidLogin[2];
    NoOccurrenceWithoutLead(s, InvalidLogin, 1);
  }

  /** The message of a 500 answer: a failure whose message mentions an invalid
      login is reported generically, any other `Error` by its own message, and
      a thrown non-`Error` as an internal error. No answer ever repeats an
      "Invalid login" text. */
  function ContactErrorMessage(e: Thrown): (r: string)
    ensures !Contains(r, InvalidLogin)
    ensures e.OtherValue? ==> r == InternalServerError
    ensures e.ErrorObject? ==> r == if Contains(e.message, InvalidLogin) then EmailConfigurationError else e.message
  {
    GenericMessagesHideLogin();
    match e
    case ErrorObject(msg) => if Contains(msg, InvalidLogin) then EmailConfigurationError else msg
    case OtherValue(_) => InternalServerError
  }

  // ---------------------------------------------------------------------------
  // The handler.

  /** The request body: JSON that could not be parsed (the parser throws), or
      the parsed payload. */
  datatype Request = Unparsable(failure: Thrown) | Parsed(body: Payload)

  /** What the single send attempt of the mail transport did. */
  datatype SendResult = Delivered | SendFailed(failure: Thrown)

  /** The answer: `{success: true}`, `{error}` for a rejected submission, or
      `{error}` for a failure. */
  datatype Reply = Sent | Rejected(issue: IssueText) | Failed(error: string)

  function StatusOf(r: Reply): int {
    match r
    case Sent => 200
    case Rejected(_) => 400
    case Failed(_) => 500
  }

  datatype Outcome = Outcome(reply: Reply, mail: Option<MailOptions>)

  function Handle(req: Request, user: string, isEmail: EmailGrammar, send: SendResult): (o: Outcome)
    // an email is handed to the transport exactly for valid submissions
    ensures o.mail.Some? <==> req.Parsed? && Accepts(ServerRules, req.body, isEmail)
    // validation failures answer 400 with the first issue only
    ensures StatusOf(o.reply) == 400 <==> req.Parsed? && !Accepts(ServerRules, req.body, isEmail)
    ensures o.reply.Rejected? ==> FirstIssue(ServerRules, req.body, isEmail) == Some(o.reply.issue)
    // success exactly when a valid submission was delivered
    ensures o.reply == Sent <==> req.Parsed? && Accepts(ServerRules, req.body, isEmail) && send == Delivered
    // the email carries the submitted fields
    ensures o.mail.Some? ==>
      AllStrings(req.body) && o.mail.value == BuildMail(user, req.body.name.s, req.body.email.s, req.body.message.s)
    // a body that does not parse is a 500, not a 400
    ensures req.Unparsable? ==> o.reply == Failed(ContactErrorMessage(req.failure))
    ensures o.mail.Some? && send.SendFailed? ==> o.reply == Failed(ContactErrorMessage(send.failure))
    ensures o.reply.Failed? ==> StatusOf(o.reply) == 500 && !Contains(o.reply.error, InvalidLogin)
  {
    match req
    case Unparsable(e) => Outcome(Failed(ContactErrorMessage(e)), None)
    case Parsed(p) =>
      match FirstIssue(ServerRules, p, isEmail)
      case Some(issue) => Outcome(Rejected(issue), None)
      case None =>
        var mail := BuildMail(user, p.name.s, p.email.s, p.message.s);
        match send
        case Delivered => Outcome(Sent, Some(mail))
        case SendFailed(e) => Outcome(Failed(ContactErrorMessage(e)), Some(mail))
  }

  /** A valid submission that is delivered is answered 200, and the email
      replies to the visitor and names them in the subject. */
  lemma ValidSubmissionSent(name: string, email: string, message: string, user: string, isEmail: EmailGrammar)
    requires JsLength(name) <= 100 && isEmail(email) && JsLength(email) <= 100 && 10 <= JsLength(message) <= 1000
    ensures var o := Handle(Parsed(Object(Str(name), Str(email), Str(message))), user, isEmail, Delivered);
      o.reply == Sent && StatusOf(o.reply) == 200 && o.mail.Some?
      && o.mail.value.replyTo == email && o.mail.value.to == user
      && o.mail.value.subject == SubjectPrefix + name
  {
    ServerAcceptsIff(Object(Str(name), Str(email), Str(message)), isEmail);
  }
}
