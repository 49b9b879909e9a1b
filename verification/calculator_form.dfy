/**
 The calculator form: four text fields, an error line, the per-field change
 handler and the submit handler that either shows one of two errors or hands
 the unchanged form data to the calculator.

 Turning a date field's text into an instant (what `new Date(text)` does) is a
 parameter `parseDate`; `None` stands for an invalid date. An invalid date
 compares false with everything, so the date-order test can only reject when
 both dates are valid.
 */
module CalculatorForm {
  import opened Wrappers

  datatype Field = BirthDate | HomelessYears | Dependents | SubscriptionDate

  /** The form's text, exactly as typed. */
  datatype FormData = FormData(
    birthDate: string,
    homelessYears: string,
    dependents: string,
    subscriptionDate: string)

  /** The form component's state: its fields and the error line ("" when no
      error is shown). */
  datatype FormState = FormState(data: FormData, error: string)

  /** The two reasons a submission is refused. */
  datatype FormError = DateOrderViolation | MissingField

  datatype Verdict = Accept | Reject(reason: FormError)

  /** What one submission produces: the new component state, and the data
      passed to the calculator, if it was called. */
  datatype Submission = Submission(state: FormState, forwarded: Option<FormData>)

  datatype Event = Change(field: Field, value: string) | Submit

  const DateOrderMessage: string := "가입자 생일 이전에 청약통장 가입은 어려워요. 다시 확인해주세요."
  const MissingFieldMessage: string := "모든 항목을 입력해주세요."

  const InitialState: FormState := FormState(FormData("", "", "", ""), "")

  function Message(e: FormError): string {
    match e
    case DateOrderViolation => DateOrderMessage
    case MissingField => MissingFieldMessage
  }

  function Get(d: FormData, f: Field): string {
    match f
    case BirthDate => d.birthDate
    case HomelessYears => d.homelessYears
    case Dependents => d.dependents
    case SubscriptionDate => d.subscriptionDate
  }

  /** The form data with field `f` replaced by `value`. */
  function Set(d: FormData, f: Field, value: string): (r: FormData)
    ensures Get(r, f) == value
    ensures forall g :: g != f ==> Get(r, g) == Get(d, g)
  {
    match f
    case BirthDate => d.(birthDate := value)
    case HomelessYears => d.(homelessYears := value)
    case Dependents => d.(dependents := value)
    case SubscriptionDate => d.(subscriptionDate := value)
  }

  /** The change handler: the edited field takes the new text, the other three
      keep theirs, and any error shown is cleared. */
  function HandleChange(s: FormState, f: Field, value: string): (r: FormState)
    ensures Get(r.data, f) == value
    ensures forall g :: g != f ==> Get(r.data, g) == Get(s.data, g)
    ensures r.error == ""
  {
    FormState(Set(s.data, f, value), "")
  }

  /** `birth >= subscription` on two Date objects: false as soon as either is
      an invalid date, a numeric comparison otherwise. */
  predicate DateOrderViolated(birth: Option<int>, subscription: Option<int>) {
    birth.Some? && subscription.Some? && birth.value >= subscription.value
  }

  predicate AnyFieldEmpty(d: FormData) {
    d.birthDate == "" || d.homelessYears == "" || d.dependents == "" || d.subscriptionDate == ""
  }

  /** The decision of the submit handler: the date order first, then the
      presence of all four fields. */
  function Validate(d: FormData, parseDate: string -> Option<int>): (v: Verdict)
    ensures v == Reject(DateOrderViolation)
      <==> DateOrderViolated(parseDate(d.birthDate), parseDate(d.subscriptionDate))
    ensures v == Reject(MissingField)
      <==> !DateOrderViolated(parseDate(d.birthDate), parseDate(d.subscriptionDate))
           && exists f :: Get(d, f) == ""
    ensures v == Accept
      <==> !DateOrderViolated(parseDate(d.birthDate), parseDate(d.subscriptionDate))
           && forall f :: Get(d, f) != ""
  {
    assert d.birthDate == Get(d, BirthDate) && d.homelessYears == Get(d, HomelessYears);
    assert d.dependents == Get(d, Dependents) && d.subscriptionDate == Get(d, SubscriptionDate);
    if DateOrderViolated(parseDate(d.birthDate), parseDate(d.subscriptionDate)) then
      Reject(DateOrderViolation)
    else if AnyFieldEmpty(d) then
      Reject(MissingField)
    else
      Accept
  }

  /** The submit handler. A refusal shows its message and keeps the fields; an
      acceptance calls the calculator with the form data unchanged and leaves
      the component state as it was. */
  function ValidateAndSubmit(s: FormState, parseDate: string -> Option<int>): (r: Submission)
    ensures r.state.data == s.data
    ensures r.forwarded.Some? <==> Validate(s.data, parseDate) == Accept
    ensures r.forwarded.Some? ==> r.forwarded.value == s.data && r.state == s
    ensures Validate(s.data, parseDate).Reject? ==>
      r.state.error == Message(Validate(s.data, parseDate).reason)
  {
    match Validate(s.data, parseDate)
    case Accept => Submission(s, Some(s.data))
    case Reject(e) => Submission(FormState(s.data, Message(e)), None)
  }

  /** Equal dates are refused as a date-order violation before the calculator
      is reached. */
  lemma EqualDatesRejected(s: FormState, parseDate: string -> Option<int>)
    requires parseDate(s.data.birthDate).Some?
    requires parseDate(s.data.birthDate) == parseDate(s.data.subscriptionDate)
    ensures ValidateAndSubmit(s, parseDate).forwarded == None
    ensures ValidateAndSubmit(s, parseDate).state.error == DateOrderMessage
  {
  }

  /** An empty date is an invalid date, so it cannot trip the date-order test;
      the missing-field message is the one shown. */
  lemma EmptyDateReportsMissingField(s: FormState, parseDate: string -> Option<int>)
    requires parseDate("") == None
    requires s.data.birthDate == "" || s.data.subscriptionDate == ""
    ensures ValidateAndSubmit(s, parseDate).forwarded == None
    ensures ValidateAndSubmit(s, parseDate).state.error == MissingFieldMessage
  {
    assert !DateOrderViolated(parseDate(s.data.birthDate), parseDate(s.data.subscriptionDate));
  }

  /** "0" is present text: zero homeless years and zero dependents are
      accepted when the dates are valid and in order. */
  lemma ZeroEntriesAccepted(birth: string, subscription: string, parseDate: string -> Option<int>)
    requires birth != "" && subscription != ""
    requires !DateOrderViolated(parseDate(birth), parseDate(subscription))
    ensures ValidateAndSubmit(FormState(FormData(birth, "0", "0", subscription), ""), parseDate).forwarded
      == Some(FormData(birth, "0", "0", subscription))
  {
  }

  /** When every non-empty date text parses, whatever reaches the calculator
      has both dates valid, with the birth date strictly earlier. */
  lemma ForwardedDatesOrdered(s: FormState, parseDate: string -> Option<int>)
    requires forall t :: t != "" ==> parseDate(t).Some?
    requires ValidateAndSubmit(s, parseDate).forwarded.Some?
    ensures parseDate(s.data.birthDate).Some? && parseDate(s.data.subscriptionDate).Some?
    ensures parseDate(s.data.birthDate).value < parseDate(s.data.subscriptionDate).value
  {
    assert Get(s.data, BirthDate) != "" && Get(s.data, SubscriptionDate) != "";
  }

  /** The submit handler only refuses empty fields and out-of-order valid
      dates: non-empty text that is not a date passes both tests and reaches
      the calculator. */
  lemma UnparsableDateForwarded(s: FormState, parseDate: string -> Option<int>)
    requires forall f :: Get(s.data, f) != ""
    requires parseDate(s.data.subscriptionDate) == None
    ensures ValidateAndSubmit(s, parseDate).forwarded == Some(s.data)
  {
  }

  /** One user action on the component. */
  function Step(s: FormState, e: Event, parseDate: string -> Option<int>): FormState {
    match e
    case Change(f, value) => HandleChange(s, f, value)
    case Submit => ValidateAndSubmit(s, parseDate).state
  }

  function Run(s: FormState, events: seq<Event>, parseDate: string -> Option<int>): FormState
    decreases |events|
  {
    if events == [] then s else Run(Step(s, events[0], parseDate), events[1..], parseDate)
  }

  /** The error line is either empty or the refusal message of the fields as
      they currently stand. */
  predicate ErrorExplained(s: FormState, parseDate: string -> Option<int>) {
    s.error == "" || (Validate(s.data, parseDate).Reject? && s.error == Message(Validate(s.data, parseDate).reason))
  }

  /** No sequence of edits and submissions leaves a stale error on screen. */
  lemma {:induction false} RunKeepsErrorExplained(s: FormState, events: seq<Event>, parseDate: string -> Option<int>)
    requires ErrorExplained(s, parseDate)
    ensures ErrorExplained(Run(s, events, parseDate), parseDate)
    decreases |events|
  {
    if events != [] {
      var next := Step(s, events[0], parseDate);
      assert ErrorExplained(next, parseDate);
      RunKeepsErrorExplained(next, events[1..], parseDate);
    }
  }

  /** Hence a submission that reaches the calculator, from any state the form
      can get into, never has an error line showing. */
  lemma AcceptedSubmissionShowsNoError(events: seq<Event>, parseDate: string -> Option<int>)
    requires ValidateAndSubmit(Run(InitialState, events, parseDate), parseDate).forwarded.Some?
    ensures ValidateAndSubmit(Run(InitialState, events, parseDate), parseDate).state.error == ""
  {
    RunKeepsErrorExplained(InitialState, events, parseDate);
  }
}
