/** The browser-side contact form: it validates the three inputs with its own
    copy of the schema, posts them to the contact endpoint, and shows the
    outcome through three pieces of state, `loading`, `success` and `error`.
    A success and an error each schedule a five-second timer that clears the
    message again; the timers are never cancelled.

    Each handler is a step function on `UiState` (used by the lemmas) and a
    method of `Controller` that updates the fields in the source's order and is
    proved to agree with its step function. Timers are explicit events: all of
    them wait the same five seconds, so they fire in the order they were
    scheduled, and the pending ones form a queue. */
module ContactForm {
  import opened JsValues
  import opened Schema
  import ContactRoute

  // ---------------------------------------------------------------------------
  // The client schema.

  const ClientRules: Rules := Rules(
    [MaxLength(100, "Name must be less than 100 characters")],
    [EmailFormat("Please enter a valid email address"), MaxLength(100, "Email must be less than 100 characters")],
    [MinLength(10, "Message must be at least 10 characters"), MaxLength(1000, "Message must be less than 1000 characters")])

  /** The values the form holds, as read back from its inputs (`None` for an
      input that yields nothing). */
  datatype FormDraft = FormDraft(name: Option<string>, email: Option<string>, message: Option<string>)

  /** The inputs after a reset: present and empty. */
  const ClearedDraft := FormDraft(Some(""), Some(""), Some(""))

  /** The three strings the form validates and posts. */
  datatype Submission = Submission(name: string, email: string, message: string)

  /** Reads the inputs, an absent one counting as the empty string. */
  function ReadDraft(d: FormDraft): (sub: Submission)
    ensures d.name.None? ==> sub.name == ""
    ensures d.email.None? ==> sub.email == ""
    ensures d.message.None? ==> sub.message == ""
    ensures d.name.Some? ==> sub.name == d.name.value
    ensures d.email.Some? ==> sub.email == d.email.value
    ensures d.message.Some? ==> sub.message == d.message.value
  {
    Submission(d.name.GetOr(""), d.email.GetOr(""), d.message.GetOr(""))
  }

  /** The JSON body the endpoint receives for a submission. */
  function AsPayload(sub: Submission): Payload {
    Object(Str(sub.name), Str(sub.email), Str(sub.message))
  }

  function ClientIssue(sub: Submission, isEmail: EmailGrammar): Option<string> {
    FirstStringIssue(ClientRules, sub.name, sub.email, sub.message, isEmail)
  }

  /** The client's copy of the schema has the server's bounds, order and
      messages, so both report the same first issue for every submission, and
      a submission the client lets through is accepted by the server. */
  lemma ClientAgreesWithServer(sub: Submission, isEmail: EmailGrammar)
    ensures ClientIssue(sub, isEmail) == FirstStringIssue(ContactRoute.ServerRules, sub.name, sub.email, sub.message, isEmail)
    ensures ClientIssue(sub, isEmail).None? <==> Accepts(ContactRoute.ServerRules, AsPayload(sub), isEmail)
  {
    assert ClientRules == ContactRoute.ServerRules;
  }

  /** An absent name never raises an issue, whatever the email and message:
      the first issue, if any, is the email's, else the message's. */
  lemma AbsentNamePasses(d: FormDraft, isEmail: EmailGrammar)
    requires d.name.None?
    ensures AllPass(ClientRules.name, ReadDraft(d).name, isEmail)
    ensures var sub := ReadDraft(d);
      ClientIssue(sub, isEmail) ==
        if !AllPass(ClientRules.email, sub.email, isEmail) then StringIssue(ClientRules.email, sub.email, isEmail)
        else StringIssue(ClientRules.message, sub.message, isEmail)
  {
    var sub := ReadDraft(d);
    assert JsLength(sub.name) == 0;
    assert Passes(ClientRules.name[0], sub.name, isEmail);
  }

  /** An absent message, once name and email pass, is reported as too short. */
  lemma AbsentMessageTooShort(d: FormDraft, isEmail: EmailGrammar)
    requires d.message.None?
    requires AllPass(ClientRules.name, ReadDraft(d).name, isEmail)
    requires AllPass(ClientRules.email, ReadDraft(d).email, isEmail)
    ensures ClientIssue(ReadDraft(d), isEmail) == Some("Message must be at least 10 characters")
  {
    var sub := ReadDraft(d);
    assert JsLength(sub.message) == 0;
    assert !Passes(ClientRules.message[0], sub.message, isEmail);
    assert FirstFailing(ClientRules.message, sub.message, isEmail) == Some(0);
  }

  // ---------------------------------------------------------------------------
  // The state and its steps.

  datatype Timer = ClearSuccess | ClearError

  datatype UiState = UiState(loading: bool, success: bool, error: string, draft: FormDraft, timers: seq<Timer>)

  const Initial := UiState(false, false, "", ClearedDraft, [])

  /** The four phases of the form the three flags encode. */
  datatype Phase = Idle | Submitting | Succeeded | Failed(message: string)

  function PhaseOf(s: UiState): Phase {
    if s.loading then Submitting
    else if s.success then Succeeded
    else if s.error != "" then Failed(s.error)
    else Idle
  }

  /** The flags never overlap: while a request is pending nothing else is
      shown, and a success is never shown together with an error. */
  predicate Coherent(s: UiState) {
    (s.loading ==> !s.success && s.error == "") && (s.success ==> s.error == "")
  }

  /** In a coherent state the phase determines the three flags. */
  lemma PhaseDeterminesFlags(s: UiState, t: UiState)
    requires Coherent(s) && Coherent(t) && PhaseOf(s) == PhaseOf(t)
    ensures s.loading == t.loading && s.success == t.success && s.error == t.error
  {
  }

  /** The submit button exists (it is replaced after a success) and is enabled
      (it is disabled while loading). */
  predicate CanSubmit(s: UiState) {
    !s.loading && !s.success
  }

  datatype SubmitResult = SubmitResult(state: UiState, request: Option<Submission>)

  /** Submitting: clear both messages and start loading; a validation failure
      shows its message, schedules the error timer and stops loading without
      any request; otherwise the inputs are posted and loading continues. */
  function SubmitStep(s: UiState, isEmail: EmailGrammar): (r: SubmitResult)
    ensures !CanSubmit(s) ==> r == SubmitResult(s, None)
    ensures r.request.Some? <==> CanSubmit(s) && ClientIssue(ReadDraft(s.draft), isEmail).None?
    ensures r.request.Some? ==>
      r.request.value == ReadDraft(s.draft) && PhaseOf(r.state) == Submitting && r.state.timers == s.timers
    ensures CanSubmit(s) && r.request.None? ==>
      PhaseOf(r.state) == Failed(ClientIssue(ReadDraft(s.draft), isEmail).value)
      && r.state.timers == s.timers + [ClearError]
    ensures r.state.draft == s.draft
  {
    if !CanSubmit(s) then SubmitResult(s, None)
    else
      var data := ReadDraft(s.draft);
      match ClientIssue(data, isEmail)
      case Some(message) =>
        SubmitResult(s.(loading := false, success := false, error := message, timers := s.timers + [ClearError]), None)
      case None =>
        SubmitResult(s.(loading := true, success := false, error := ""), Some(data))
  }

  /** What the form learns from its request: `fetch` rejected, or a response
      that is ok or not. Only a failed response's body is read. */
  datatype Answer = NetworkFailure(failure: Thrown) | Ok | NotOk(body: ErrorBody)

  /** A failed response's body: unreadable as JSON, or its `error` property. */
  datatype ErrorBody = Unreadable(failure: Thrown) | ErrorField(error: Option<string>)

  const FailedToSend := "Failed to send message"

  /** The message a caught value shows. */
  function CaughtMessage(e: Thrown): string {
    match e
    case ErrorObject(m) => m
    case OtherValue(_) => FailedToSend
  }

  /** The message shown for a failed answer. */
  function FailureMessage(a: Answer): (m: string)
    requires !a.Ok?
    ensures a.NotOk? && a.body.ErrorField? ==>
      m == if a.body.error.Some? && a.body.error.value != "" then a.body.error.value else FailedToSend
    ensures a.NotOk? && a.body.ErrorField? ==> m != ""
    ensures a.NetworkFailure? ==>
      m == if a.failure.ErrorObject? then a.failure.message else FailedToSend
    ensures a.NotOk? && a.body.Unreadable? ==>
      m == if a.body.failure.ErrorObject? then a.body.failure.message else FailedToSend
  {
    match a
    case NetworkFailure(e) => CaughtMessage(e)
    case NotOk(Unreadable(e)) => CaughtMessage(e)
    case NotOk(ErrorField(error)) => if error.Some? && error.value != "" then error.value else FailedToSend
  }

  /** The answer arrives: success shows the success message, resets the inputs
      and schedules its timer; anything else shows an error and schedules the
      error timer. Loading ends either way. */
  function SettleStep(s: UiState, a: Answer): (t: UiState)
    ensures !t.loading
    ensures a.Ok? ==> t.success && t.draft == ClearedDraft && t.error == s.error && t.timers == s.timers + [ClearSuccess]
    ensures !a.Ok? ==>
      t.error == FailureMessage(a) && t.success == s.success && t.draft == s.draft && t.timers == s.timers + [ClearError]
  {
    match a
    case Ok => s.(loading := false, success := true, draft := ClearedDraft, timers := s.timers + [ClearSuccess])
    case _ => s.(loading := false, error := FailureMessage(a), timers := s.timers + [ClearError])
  }

  /** The oldest pending timer fires. */
  function TimerStep(s: UiState): (t: UiState)
    requires s.timers != []
    ensures t.timers == s.timers[1..]
    ensures s.timers[0] == ClearSuccess ==> !t.success && t.error == s.error
    ensures s.timers[0] == ClearError ==> t.error == "" && t.success == s.success
    ensures t.loading == s.loading && t.draft == s.draft
  {
    match s.timers[0]
    case ClearSuccess => s.(success := false, timers := s.timers[1..])
    case ClearError => s.(error := "", timers := s.timers[1..])
  }

  /** The error's dismiss button clears the error and nothing else. */
  function DismissStep(s: UiState): (t: UiState)
    ensures t.error == "" && PhaseOf(t) != Failed(s.error)
    ensures t.loading == s.loading && t.success == s.success && t.draft == s.draft && t.timers == s.timers
  {
    s.(error := "")
  }

  /** "Send Another Message", shown only after a success: hides the success
      message and resets the inputs, and nothing else. */
  function SendAnotherStep(s: UiState): (t: UiState)
    ensures s.success ==> !t.success && t.draft == ClearedDraft
    ensures !s.success ==> t == s
    ensures t.loading == s.loading && t.error == s.error && t.timers == s.timers
  {
    if s.success then s.(success := false, draft := ClearedDraft) else s
  }

  /** The visitor edits the inputs. */
  function EditStep(s: UiState, d: FormDraft): UiState {
    s.(draft := d)
  }

  // ---------------------------------------------------------------------------
  // Properties of the steps.

  /** Every step keeps the flags coherent; an answer only arrives while its
      request is pending. */
  lemma CoherentPreserved(s: UiState, isEmail: EmailGrammar, a: Answer, d: FormDraft)
    requires Coherent(s)
    ensures Coherent(SubmitStep(s, isEmail).state)
    ensures s.loading ==> Coherent(SettleStep(s, a))
    ensures s.timers != [] ==> Coherent(TimerStep(s))
    ensures Coherent(DismissStep(s)) && Coherent(SendAnotherStep(s)) && Coherent(EditStep(s, d))
  {
  }

  /** No event cancels a timer: only a timer's own firing removes it from the
      queue, and the other events keep every pending timer in place. */
  lemma TimersNeverCancelled(s: UiState, isEmail: EmailGrammar, a: Answer, d: FormDraft)
    ensures SubmitStep(s, isEmail).state.timers[..|s.timers|] == s.timers
    ensures SettleStep(s, a).timers[..|s.timers|] == s.timers
    ensures DismissStep(s).timers == s.timers && SendAnotherStep(s).timers == s.timers
    ensures EditStep(s, d).timers == s.timers
  {
    var r := SubmitStep(s, isEmail).state.timers;
    assert r == s.timers || r == s.timers + [ClearError];
    assert (s.timers + [ClearError])[..|s.timers|] == s.timers;
    assert (s.timers + [ClearSuccess])[..|s.timers|] == s.timers;
  }

  /** A stale timer cuts a newer message short. After a success, the visitor
      sends another message at once and it succeeds too: the first success's
      timer, still pending, fires first and hides the new success message,
      with the new success's own timer still queued behind it. */
  lemma StaleTimerHidesNewSuccess(s: UiState, d: FormDraft, isEmail: EmailGrammar)
    requires s.success && !s.loading && s.timers == [ClearSuccess]
    requires ClientIssue(ReadDraft(d), isEmail).None?
    ensures var s1 := EditStep(SendAnotherStep(s), d);
      var r := SubmitStep(s1, isEmail);
      var s2 := SettleStep(r.state, Ok);
      r.request.Some? && s2.success && s2.timers == [ClearSuccess, ClearSuccess]
      && !TimerStep(s2).success && TimerStep(s2).timers == [ClearSuccess]
  {
  }

  /** Likewise an earlier failure's timer clears a newer error. */
  lemma StaleTimerClearsNewError(s: UiState, isEmail: EmailGrammar, a: Answer)
    requires !s.loading && !s.success && s.timers == [ClearError]
    requires ClientIssue(ReadDraft(s.draft), isEmail).None?
    requires a.NotOk? && a.body.ErrorField?
    ensures var r := SubmitStep(DismissStep(s), isEmail);
      var s2 := SettleStep(r.state, a);
      s2.error != "" && s2.timers == [ClearError, ClearError]
      && TimerStep(s2).error == "" && TimerStep(s2).timers == [ClearError]
  {
  }

  // ---------------------------------------------------------------------------
  // The controller.

  class Controller {
    var loading: bool
    var success: bool
    var error: string
    var draft: FormDraft
    var timers: seq<Timer>

    function State(): UiState
      reads this
    {
      UiState(loading, success, error, draft, timers)
    }

    ghost predicate Valid()
      reads this
    {
      Coherent(State())
    }

    constructor ()
      ensures Valid() && State() == Initial
    {
      loading, success, error := false, false, "";
      draft := ClearedDraft;
      timers := [];
    }

    method Edit(d: FormDraft)
      requires Valid()
      modifies this
      ensures Valid() && State() == EditStep(old(State()), d)
    {
      draft := d;
    }

    /** The submit handler up to its request; returns the submission it posts,
        if any. */
    method Submit(isEmail: EmailGrammar) returns (request: Option<Submission>)
      requires Valid()
      modifies this
      ensures Valid()
      ensures State() == SubmitStep(old(State()), isEmail).state
      ensures request == SubmitStep(old(State()), isEmail).request
    {
      if loading || success {
        return None;
      }
      loading := true;
      error := "";
      success := false;
      var data := ReadDraft(draft);
      var issue := ClientIssue(data, isEmail);
      if issue.Some? {
        error := issue.value;
        timers := timers + [ClearError];
        loading := false;
        request := None;
      } else {
        request := Some(data);
      }
    }

    /** The rest of the submit handler, once its request is answered. */
    method Receive(a: Answer)
      requires Valid() && loading
      modifies this
      ensures Valid() && State() == SettleStep(old(State()), a)
    {
      if a.Ok? {
        success := true;
        draft := ClearedDraft;
        timers := timers + [ClearSuccess];
      } else {
        error := FailureMessage(a);
        timers := timers + [ClearError];
      }
      loading := false;
    }

    method TimerFires()
      requires Valid() && timers != []
      modifies this
      ensures Valid() && State() == TimerStep(old(State()))
    {
      var t := timers[0];
      timers := timers[1..];
      if t == ClearSuccess {
        success := false;
      } else {
        error := "";
      }
    }

    method Dismiss()
      requires Valid()
      modifies this
      ensures Valid() && State() == DismissStep(old(State()))
    {
      error := "";
    }

    method SendAnother()
      requires Valid()
      modifies this
      ensures Valid() && State() == SendAnotherStep(old(State()))
    {
      if success {
        success := false;
        draft := ClearedDraft;
      }
    }
  }
}
