/** The validation schema shared by the contact route and the contact form: an
    object with the string fields `name`, `email` and `message`, each carrying a
    list of refinements (`max`, `min`, `email`) with their own messages.

    Parsing reports the issues of the fields in declaration order, and those of
    one field in the order of its refinements; both handlers only ever look at
    the first issue, so the model computes that first issue directly. */
module Schema {
  import opened JsValues

  datatype Field = Name | Email | Message

  /** One refinement of a string field with the message it reports. */
  datatype Check =
    | MaxLength(limit: nat, text: string)
    | MinLength(limit: nat, text: string)
    | EmailFormat(text: string)

  /** The refinements of the three fields, each in declaration order. */
  datatype Rules = Rules(name: seq<Check>, email: seq<Check>, message: seq<Check>)

  /** The email grammar of the validation library, which this model does not
      spell out: any predicate on strings may stand for it. */
  type EmailGrammar = string -> bool

  /** Whether `s` satisfies one refinement; the length bounds compare the
      string's JavaScript `length`. */
  predicate Passes(c: Check, s: string, isEmail: EmailGrammar) {
    match c
    case MaxLength(n, _) => JsLength(s) <= n
    case MinLength(n, _) => JsLength(s) >= n
    case EmailFormat(_) => isEmail(s)
  }

  predicate AllPass(checks: seq<Check>, s: string, isEmail: EmailGrammar) {
    forall k :: 0 <= k < |checks| ==> Passes(checks[k], s, isEmail)
  }

  /** The position of the first refinement that `s` fails, if any. */
  function FirstFailing(checks: seq<Check>, s: string, isEmail: EmailGrammar): (r: Option<nat>)
    ensures r.None? <==> AllPass(checks, s, isEmail)
    ensures r.Some? ==> r.value < |checks| && !Passes(checks[r.value], s, isEmail)
    ensures r.Some? ==> forall k :: 0 <= k < r.value ==> Passes(checks[k], s, isEmail)
  {
    if checks == [] then None
    else if !Passes(checks[0], s, isEmail) then Some(0)
    else
      match FirstFailing(checks[1..], s, isEmail)
      case None => None
      case Some(k) => Some(k + 1)
  }

  /** The message of the first refinement that `s` fails, if any. */
  function StringIssue(checks: seq<Check>, s: string, isEmail: EmailGrammar): (r: Option<string>)
    ensures r.None? <==> AllPass(checks, s, isEmail)
    ensures r.Some? ==>
      exists k :: 0 <= k < |checks| && !Passes(checks[k], s, isEmail) && r.value == checks[k].text
        && (forall j :: 0 <= j < k ==> Passes(checks[j], s, isEmail))
  {
    match FirstFailing(checks, s, isEmail)
    case None => None
    case Some(k) => Some(checks[k].text)
  }

  /** The message of the first issue of three string fields, in field order. */
  function FirstStringIssue(rules: Rules, name: string, email: string, message: string, isEmail: EmailGrammar): (r: Option<string>)
    ensures r.None? <==>
      AllPass(rules.name, name, isEmail) && AllPass(rules.email, email, isEmail) && AllPass(rules.message, message, isEmail)
    ensures !AllPass(rules.name, name, isEmail) ==> r == StringIssue(rules.name, name, isEmail)
    ensures AllPass(rules.name, name, isEmail) && !AllPass(rules.email, email, isEmail) ==>
      r == StringIssue(rules.email, email, isEmail)
    ensures AllPass(rules.name, name, isEmail) && AllPass(rules.email, email, isEmail) ==>
      r == StringIssue(rules.message, message, isEmail)
  {
    var n := StringIssue(rules.name, name, isEmail);
    if n.Some? then n
    else
      var e := StringIssue(rules.email, email, isEmail);
      if e.Some? then e
      else StringIssue(rules.message, message, isEmail)
  }

  /** A request body after JSON parsing: either not an object, or an object
      from which the three properties are read. */
  datatype Payload =
    | NotAnObject
    | Object(name: JsonValue, email: JsonValue, message: JsonValue)

  predicate AllStrings(p: Payload) {
    p.Object? && p.name.Str? && p.email.Str? && p.message.Str?
  }

  datatype Location = WholeBody | AtField(field: Field)

  /** The text of an issue: one of the schema's own messages, or the library's
      default type-error text for a body or field of the wrong type, which this
      model leaves abstract. */
  datatype IssueText = Custom(text: string) | LibraryDefault(at: Location)

  function FieldIssue(f: Field, checks: seq<Check>, v: JsonValue, isEmail: EmailGrammar): (r: Option<IssueText>)
    ensures r.None? <==> v.Str? && AllPass(checks, v.s, isEmail)
    ensures !v.Str? ==> r == Some(LibraryDefault(AtField(f)))
    ensures v.Str? && !AllPass(checks, v.s, isEmail) ==> r == Some(Custom(StringIssue(checks, v.s, isEmail).value))
  {
    match v
    case Str(s) =>
      (match StringIssue(checks, s, isEmail)
       case None => None
       case Some(t) => Some(Custom(t)))
    case _ => Some(LibraryDefault(AtField(f)))
  }

  /** The first issue that parsing `p` against `rules` reports, if any. */
  function FirstIssue(rules: Rules, p: Payload, isEmail: EmailGrammar): (r: Option<IssueText>)
    ensures r.None? <==>
      AllStrings(p) && AllPass(rules.name, p.name.s, isEmail)
      && AllPass(rules.email, p.email.s, isEmail) && AllPass(rules.message, p.message.s, isEmail)
    ensures !p.Object? ==> r == Some(LibraryDefault(WholeBody))
    // for an object, the first field in declaration order that has an issue reports it
    ensures p.Object? && FieldIssue(Name, rules.name, p.name, isEmail).Some? ==>
      r == FieldIssue(Name, rules.name, p.name, isEmail)
    ensures p.Object? ==>
      FieldIssue(Name, rules.name, p.name, isEmail).None? && FieldIssue(Email, rules.email, p.email, isEmail).Some? ==>
      r == FieldIssue(Email, rules.email, p.email, isEmail)
    ensures p.Object? ==>
      FieldIssue(Name, rules.name, p.name, isEmail).None? && FieldIssue(Email, rules.email, p.email, isEmail).None? ==>
      r == FieldIssue(Message, rules.message, p.message, isEmail)
    ensures AllStrings(p) ==>
      match FirstStringIssue(rules, p.name.s, p.email.s, p.message.s, isEmail)
      case None => r.None?
      case Some(t) => r == Some(Custom(t))
  {
    match p
    case NotAnObject => Some(LibraryDefault(WholeBody))
    case Object(name, email, message) =>
      var n := FieldIssue(Name, rules.name, name, isEmail);
      if n.Some? then n
      else
        var e := FieldIssue(Email, rules.email, email, isEmail);
        if e.Some? then e
        else FieldIssue(Message, rules.message, message, isEmail)
  }

  /** Parsing succeeds. */
  predicate Accepts(rules: Rules, p: Payload, isEmail: EmailGrammar) {
    FirstIssue(rules, p, isEmail).None?
  }
}
