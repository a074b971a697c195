# A verified model of the Aladi site's contact and checkout core

The site has two server endpoints and two client components that talk to them:

- **Contact relay** (`POST /api/contact`). It validates a submission of name,
  email and message against a schema. An invalid submission gets a 400 answer
  carrying the first issue only. A valid one is turned into an email: the HTML
  body carries the message with `<`, `>` and line breaks escaped, and the text
  body carries it raw. The email goes to the site's own address with the
  visitor as reply-to. Failures are mapped to 500 answers, and an SMTP "Invalid
  login" is masked.
- **Checkout endpoint** (`POST /api/create-checkout-session`). It requires a
  truthy `productId`. It resolves the id to a unit price, with a fallback price
  for unknown ids. It asks the payment processor for a one-time card-payment
  session whose success and cancel URLs lead back to the requesting origin, and
  answers with the session URL.
- **Contact form**. It validates with its own copy of the schema and posts the
  submission. It drives three pieces of state, `loading`, `success` and
  `error`. Success and error messages are cleared again by five-second timers
  that nothing cancels.
- **Pricing page**. It shows a catalogue of four plans. Each plan's button posts
  the plan's product id to the checkout endpoint, then either follows the
  returned URL or alerts the failure.

The model is in seven modules:

| file | module | contents |
|---|---|---|
| `js_values.dfy` | `JsValues` | `Option`; JSON values and JavaScript truthiness; thrown values (an `Error` with its message, or anything else); substring search |
| `schema.dfy` | `Schema` | the fail-fast validation semantics shared by both copies of the schema: checks per field, the first issue in field order then check order, and the library's own issue for a non-string field |
| `sanitize.dfy` | `Sanitize` | the three global replaces of the contact endpoint, and a per-character reference definition |
| `contact_route.dfy` | `ContactRoute` | the server schema, the email, the error mapping and the request handler |
| `checkout_route.dfy` | `CheckoutRoute` | the price lookup, the origin fallback, the session parameters and the request handler |
| `contact_form.dfy` | `ContactForm` | the client schema; the form's state and one step function per event; `class Controller`, whose methods update the fields as the handlers do |
| `pricing_page.dfy` | `PricingPage` | the catalogue, how the page classifies the endpoint's answer, and `class CheckoutButtons` holding the pending product id |

Some things are parameters of the model:

- Zod's email grammar is the parameter `isEmail`.
- The mail transport and the payment processor are parameters that give the
  outcome of their single call. Each handler's `Outcome` records the email or
  session parameters it handed over.
- The configured sender address (`EMAIL_USER`) is the parameter `user`.
- The `origin` header is an `Option<string>`.

In the contact form, every timer waits the same five seconds, so timers fire in
the order they were scheduled. The pending timers are therefore a queue, and a
timer firing is an explicit event.

## Model

| member | source | states |
|---|---|---|
| Schema.FirstFailing | src/app/api/contact/route.ts:6-15 | Within one field, the checks are tried in order: the result is absent iff every check passes, otherwise it is the index of the first failing check, all earlier checks passing |
| Schema.StringIssue | src/app/api/contact/route.ts:6-15 | A string field has no issue iff all its checks pass; otherwise the issue is the message of a failing check all of whose predecessors pass, i.e. of the first failing check |
| Schema.FirstStringIssue | src/app/api/contact/route.ts:21-25 | For three strings, there is no issue iff all three fields pass; otherwise the reported issue is the first failing field's own issue, in the order name, email, message |
| Schema.FieldIssue | src/app/api/contact/route.ts:21-25 | A field value has no issue iff it is a string passing every check; a non-string or missing value gets the library's own issue at that field; a failing string gets the message of its first failing check |
| Schema.FirstIssue | src/app/api/contact/route.ts:21-30 | A payload passes iff it is an object whose three fields are strings that pass their checks; a non-object body gets the library's issue for the whole body; for an object, the first field in the order name, email, message that has an issue reports it, whatever the later fields hold; for three strings the issue is the one `FirstStringIssue` reports |
| JsValues.JsLength | src/app/api/contact/route.ts:8-14 | The `length` the schema's bounds compare counts UTF-16 code units: at least the number of characters and at most twice that |
| JsValues.JsLengthBmp | src/app/api/contact/route.ts:8-14 | Without characters beyond the Basic Multilingual Plane, `length` is the number of characters |
| ContactRoute.ServerStringIssues | src/app/api/contact/route.ts:6-15 | Each field of the server schema fails with exactly the message of its first violated bound: name longer than 100; email malformed, then longer than 100; message shorter than 10, then longer than 1000 (lengths in UTF-16 code units) |
| ContactRoute.AstralCharactersCountTwice | src/app/api/contact/route.ts:8-13 | A character beyond the Basic Multilingual Plane counts twice: 51 of them make a name that is too long, and 5 of them a message that is long enough |
| ContactRoute.ServerFirstIssue | src/app/api/contact/route.ts:6-15 | The first issue of three strings follows the decision list name, email format, email length, message minimum, message maximum |
| ContactRoute.NameIssueReportedFirst | src/app/api/contact/route.ts:6-8 | For an object body, a name that is not a string, or is longer than 100, is the issue reported, whatever the email and message hold |
| ContactRoute.ServerAcceptsIff | src/app/api/contact/route.ts:6-15 | A submission passes iff all fields are strings, the name has a length of at most 100, the email is well formed with a length of at most 100, and the message has a length from 10 to 1000, lengths in UTF-16 code units (so exactly 100 is accepted) |
| Sanitize.ReplaceAll | src/app/api/contact/route.ts:46-48 | A global replace of a character by a text that does not contain it leaves no occurrence of that character, and drops no other character |
| Sanitize.SanitizeMessage | src/app/api/contact/route.ts:45-48 | The sanitised message contains no line break |
| Sanitize.SanitizeIsPerChar | src/app/api/contact/route.ts:45-48 | The three chained replaces equal escaping each character on its own: `<` becomes `&lt;`, `>` becomes `&gt;`, a line break becomes `<br>`, and every other character is kept |
| Sanitize.SanitizeAppend | src/app/api/contact/route.ts:45-48 | Sanitising a concatenation is concatenating the sanitised parts |
| Sanitize.EscapeEachCounts | src/app/api/contact/route.ts:45-48 | The escaped text has as many `<` and as many `>` as the input has line breaks, has no line break, and is three characters longer per escaped character |
| Sanitize.SanitizeOnlyBreakTags | src/app/api/contact/route.ts:45-48 | In the sanitised message every `<` begins, and every `>` ends, a `<br>` that stands for an input line break |
| Sanitize.SanitizeTwiceIff | src/app/api/contact/route.ts:45-48 | Sanitising twice gives the same as sanitising once iff the input has no line break: an escaped `<` or `>` is left alone by a second pass, but a `<br>` is escaped again |
| Sanitize.SanitizeNotInjective | src/app/api/contact/route.ts:45-48 | Because `&` is not escaped, two different messages, one with a literal `&lt;` and one with `<`, are sanitised to the same text |
| Sanitize.SanitizeScriptTag | src/app/api/contact/route.ts:45-48 | A `<script>` tag anywhere in a message reaches the HTML body as the inert text `&lt;script&gt;` |
| ContactRoute.BuildMail | src/app/api/contact/route.ts:50-82 | The email is sent from the configured address under the display name "Aladi Contact Form", goes to that same address, replies to the visitor, and has subject "New Contact Form Submission - " plus the name; the HTML body holds the sanitised message in its slot; the text body ends with the raw message |
| ContactRoute.HtmlDependsOnlyOnSanitized | src/app/api/contact/route.ts:69 | Messages that sanitise alike give identical HTML bodies, while different messages always give different text bodies |
| ContactRoute.GenericMessagesHideLogin | src/app/api/contact/route.ts:96-101 | Neither fallback message contains "Invalid login" |
| ContactRoute.ContactErrorMessage | src/app/api/contact/route.ts:96-101 | An `Error` whose message contains "Invalid login" gives "Email configuration error"; any other `Error` gives its own message; a non-`Error` gives "Internal server error"; the result never contains "Invalid login" |
| ContactRoute.Handle | src/app/api/contact/route.ts:17-107 | An email is handed to the transport iff the body parsed and passes the schema; the answer is 400 iff the body parsed and fails, carrying the first issue only; it is 200 iff a valid submission was delivered; an unparsable body or a failed send is 500 with the mapped message |
| ContactRoute.ValidSubmissionSent | src/app/api/contact/route.ts:85-90 | A submission within all bounds that is delivered gets 200, and its email replies to the visitor and names them in the subject |
| CheckoutRoute.UnitAmountForProduct | src/app/api/create-checkout-session/route.ts:66-78 | The price is always 49900, 99900, 179900 or 249900 cents: 49900, 179900 and 249900 exactly for the starter, pro and e-commerce ids, 99900 for the business id and for every unknown id |
| CheckoutRoute.UnitAmountFor | src/app/api/create-checkout-session/route.ts:37 | The strict `switch` matches only strings: a non-string product id is priced at the fallback, and the price is never below 49900 |
| CheckoutRoute.Origin | src/app/api/create-checkout-session/route.ts:25 | The origin is the header when it is present and non-empty, otherwise "http://localhost:3000"; never empty |
| CheckoutRoute.SessionFor | src/app/api/create-checkout-session/route.ts:29-44 | A payment-mode card session with exactly one line item, in USD, for the product at its resolved price, with quantity 1; the success and cancel URLs are the origin followed by the success path and by "/pricing" |
| CheckoutRoute.StripeErrorMessage | src/app/api/create-checkout-session/route.ts:48-53 | A payment failure's text is "Stripe error: " followed by the error's message, or by the shown value for a non-`Error` |
| CheckoutRoute.ServerErrorMessage | src/app/api/create-checkout-session/route.ts:55-61 | Any other failure's text is the error's message, or "Internal server error" for a non-`Error` |
| CheckoutRoute.Handle | src/app/api/create-checkout-session/route.ts:9-63 | The processor is asked for a session iff the body is readable and its product id is truthy; a falsy id is a 400 "Product ID is required"; the session URL is returned iff the processor created a session; a payment failure and an unreadable body are 500s with their texts |
| CheckoutRoute.UnknownProductCharged | src/app/api/create-checkout-session/route.ts:76-77 | An unrecognised non-empty id is not rejected: a session is requested at the fallback price |
| CheckoutRoute.ChargedAtLeastStarter | src/app/api/create-checkout-session/route.ts:66-78 | Every session requested is priced at least at the starter plan's 49900 cents |
| ContactForm.ReadDraft | src/components/ContactForm.tsx:31-36 | An absent input reads as the empty string; a present one as its value |
| ContactForm.ClientAgreesWithServer | src/components/ContactForm.tsx:8-17 | The client schema reports the same first issue as the server schema for every submission, and it lets a submission through iff the server accepts it |
| ContactForm.AbsentNamePasses | src/components/ContactForm.tsx:33-43 | For every draft with no name, the name passes, and the first issue, if any, is the email's, else the message's |
| ContactForm.AbsentMessageTooShort | src/components/ContactForm.tsx:35-43 | For every draft with no message whose name and email pass, the issue is "Message must be at least 10 characters" |
| ContactForm.PhaseDeterminesFlags | src/components/ContactForm.tsx:21-23 | In a coherent state, the phase shown (idle, submitting, succeeded or failed with a message) determines all three flags |
| ContactForm.SubmitStep | src/components/ContactForm.tsx:25-49 | Submitting does nothing unless the submit button is present and enabled; a request is posted iff it is and the inputs pass validation, and then the form is submitting with the inputs read as posted; a validation failure shows the first issue and schedules the error timer |
| ContactForm.FailureMessage | src/components/ContactForm.tsx:51-67 | A failed response shows its body's `error` when present and non-empty, otherwise "Failed to send message", and never an empty text; a rejected `fetch` or an unreadable body shows the `Error`'s message, or "Failed to send message" for a non-`Error` |
| ContactForm.SettleStep | src/components/ContactForm.tsx:51-75 | An answer always ends loading; success shows the success message, resets the inputs and schedules the success timer; a failure shows its message and schedules the error timer |
| ContactForm.TimerStep | src/components/ContactForm.tsx:62-64 | The oldest timer fires and leaves the queue: a success timer hides the success message, an error timer clears the error, whatever is shown by then |
| ContactForm.DismissStep | src/components/ContactForm.tsx:126 | Dismissing clears the error and changes nothing else, the pending timers included |
| ContactForm.SendAnotherStep | src/components/ContactForm.tsx:142-145 | "Send Another Message", available only after a success, hides the success message and resets the inputs; it changes nothing else, the pending timers included |
| ContactForm.CoherentPreserved | src/components/ContactForm.tsx:25-76 | Every event keeps the flags coherent: nothing else is shown while loading, and success and error are never shown together |
| ContactForm.TimersNeverCancelled | src/components/ContactForm.tsx:61-72 | Submitting, an answer, dismissing, "Send Another Message" and editing each keep every pending timer in place |
| ContactForm.StaleTimerHidesNewSuccess | src/components/ContactForm.tsx:61-64 | After a success, "Send Another Message" and a second successful send, the first success's timer fires first and hides the new success message |
| ContactForm.StaleTimerClearsNewError | src/components/ContactForm.tsx:69-72 | After an error is dismissed and a new submission fails, the earlier error's timer fires first and clears the new error |
| ContactForm.Controller.constructor | src/components/ContactForm.tsx:21-23 | The form starts idle with empty inputs and no pending timer |
| ContactForm.Controller.Edit | src/components/ContactForm.tsx:84-118 | Typing changes the inputs only |
| ContactForm.Controller.Submit | src/components/ContactForm.tsx:25-49 | The handler's updates up to the request leave the state `SubmitStep` gives and return its request, keeping the flags coherent |
| ContactForm.Controller.Receive | src/components/ContactForm.tsx:51-75 | The handler's updates once its request is answered leave the state `SettleStep` gives, keeping the flags coherent |
| ContactForm.Controller.TimerFires | src/components/ContactForm.tsx:62-64 | A timer callback leaves the state `TimerStep` gives |
| ContactForm.Controller.Dismiss | src/components/ContactForm.tsx:126 | The dismiss handler leaves the state `DismissStep` gives |
| ContactForm.Controller.SendAnother | src/components/ContactForm.tsx:142-145 | The "Send Another Message" handler leaves the state `SendAnotherStep` gives |
| PricingPage.PlanIdsDistinct | src/app/pricing/page.tsx:10-69 | The four plans have pairwise different product ids |
| PricingPage.LabelCents | src/app/pricing/page.tsx:13 | A price label is read as cents only when it is a `$` followed by digits |
| PricingPage.PlanPricesMatchServer | src/app/pricing/page.tsx:10-69 | Each plan's displayed dollar amount, times 100, is the unit price the checkout endpoint charges for its product id ($499, $999, $1799 and $2499+ give 49900, 99900, 179900 and 249900 cents) |
| PricingPage.PlanIdsKnown | src/app/pricing/page.tsx:14-58 | Every plan's product id is one of the four ids the checkout endpoint prices explicitly |
| PricingPage.NatToString | src/app/pricing/page.tsx:86 | The status in "HTTP error <status>" is written in decimal digits that denote it, without a leading zero |
| PricingPage.CanonicalDecimal | src/app/pricing/page.tsx:86 | Any digit string without a leading zero that denotes the status is exactly the text `NatToString` gives, so the status text is fixed |
| PricingPage.Classify | src/app/pricing/page.tsx:84-102 | The page redirects iff the response is ok, readable, has no `error` and has a `url`, and then goes to that `url`; a non-ok response fails with its `error` or "HTTP error" and the status; an ok one with an `error` fails with it; one without a URL fails with "No checkout URL received from the server"; a rejected `fetch` or an unreadable body fails with the `Error`'s message, or "Unknown error" for a non-`Error` |
| PricingPage.PlanCheckoutEndToEnd | src/app/pricing/page.tsx:74-99 | For any catalogue plan, a session is always requested, and the page redirects iff the processor created a session with a URL, to that URL |
| PricingPage.AtMostOnePlanDisabled | src/app/pricing/page.tsx:145 | Whatever checkout is pending, no two plans' buttons are disabled at once |
| PricingPage.OnlyPendingPlanDisabled | src/app/pricing/page.tsx:145 | While plan i's checkout is pending, its button is disabled and every other plan's button stays clickable |
| PricingPage.CheckoutButtons.constructor | src/app/pricing/page.tsx:72 | No checkout is pending at first |
| PricingPage.CheckoutButtons.Click | src/app/pricing/page.tsx:74-81 | A click on an enabled button posts that plan's id and marks it pending; a click on the disabled button posts nothing; afterwards every plan with another id is clickable |
| PricingPage.CheckoutButtons.Settle | src/app/pricing/page.tsx:84-104 | The page navigates or alerts "Checkout failed: " with the message, as `Classify` decides; the pending id is cleared on failure only and stays set on a redirect |

## Left out

- JsLength: strings in the model are sequences of Unicode scalar values, so a JavaScript string holding an unpaired surrogate is not represented; for every other string it gives the UTF-16 `length`.
- The contact form's "manual actions cancel the pending timeout" is described for the site but not done by the code. The code never cancels a timer, so the model follows the code and proves the effect: `StaleTimerHidesNewSuccess` and `StaleTimerClearsNewError` show an older timer cutting a newer message short.
- JSON parsing is not modelled. A request body is either unparsable, with the thrown value, or the parsed fields. For the checkout endpoint a `null` body counts as unreadable: reading its `productId` for the log line throws before the destructuring is reached.
- Zod's email grammar is the parameter `isEmail`, since it is library code. The text zod produces for a missing or non-string field is kept abstract as `LibraryDefault`, with its location.
- The mail transport (`nodemailer`, SMTP settings, TLS) and the payment processor's SDK are foreign network calls. Each is replaced by the outcome of its single call.
- Environment variables are not modelled. The sender address is the parameter `user`, and it may be any string, whereas the code would print `undefined` when the variable is unset. The secret keys and the publishable key are not modelled.
- Console logging and its redaction of the product id are not modelled, and neither is the `JSON.stringify` of the request body for the log.
- The name and email are embedded unescaped in the HTML body. `BuildMail` states where the sanitised message goes, but it says nothing about the escaping of the other two fields, because the code does none.
- The browser's own constraint validation (`required`, `type="email"`) can block a submission before the handler runs. It is not modelled, so `SubmitStep` covers every submission that reaches the handler.
- `formRef.current` is assumed present: a reset always clears the inputs.
- React's batching and rendering, `alert`, `window.location` and the real-time scheduling of `setTimeout` are not modelled. The visible reactions are values (`PageAction`), and timers are queue events.
- `Controller.Receive` requires that a request is pending, since an answer only ever continues a submission that posted one.
- The plans' feature lists, "ideal for" texts and the comparison table are static presentation and are not modelled. The catalogue keeps the name, price label, product id and popularity.
- The landing page, headers, footer, layout, success page and the test-payment stub are outside this model.
