/**
 * The contact form: four text fields, and a simulated submission that shows
 * "Sending..." for a delay, then "Message Sent!", then clears the form. The
 * delay and the reset are timers; here they are the events `DelayElapsed`
 * and `ResetElapsed`, which the environment fires.
 */
module Contact {

  import opened Wrappers

  datatype Field = Name | Email | ProjectType | Message

  datatype FormFields = FormFields(name: string, email: string, projectType: string, message: string)

  const EmptyForm: FormFields := FormFields([], [], [], [])

  function Get(f: FormFields, field: Field): string
  {
    match field
    case Name => f.name
    case Email => f.email
    case ProjectType => f.projectType
    case Message => f.message
  }

  /** The `onChange` update `{ ...formState, field: value }`. */
  function With(f: FormFields, field: Field, value: string): (g: FormFields)
    ensures Get(g, field) == value
    ensures forall other :: other != field ==> Get(g, other) == Get(f, other)
  {
    match field
    case Name => f.(name := value)
    case Email => f.(email := value)
    case ProjectType => f.(projectType := value)
    case Message => f.(message := value)
  }

  /** The component's state. */
  datatype FormState = FormState(form: FormFields, isSubmitting: bool, isSubmitted: bool)

  const Initial: FormState := FormState(EmptyForm, false, false)

  /** The three phases the flags describe. */
  datatype Phase = Idle | Submitting | Submitted

  /** The two flags are never both set. */
  predicate Inv(s: FormState)
  {
    !(s.isSubmitting && s.isSubmitted)
  }

  function PhaseOf(s: FormState): (p: Phase)
    requires Inv(s)
    ensures p == Idle <==> !s.isSubmitting && !s.isSubmitted
    ensures p == Submitting <==> s.isSubmitting
    ensures p == Submitted <==> s.isSubmitted
  {
    if s.isSubmitting then Submitting else if s.isSubmitted then Submitted else Idle
  }

  /** The submit button's `disabled` attribute: set in every phase but idle. */
  function ButtonDisabled(s: FormState): (disabled: bool)
    ensures Inv(s) ==> (disabled <==> PhaseOf(s) != Idle)
  {
    s.isSubmitting || s.isSubmitted
  }

  /** Every field carries `required`: the browser submits only when all four are non-empty. */
  predicate AllFilled(f: FormFields)
  {
    forall field :: Get(f, field) != []
  }

  /** The form is complete when each of the four fields is non-empty. */
  lemma AllFilledFields(f: FormFields)
    ensures AllFilled(f) <==> f.name != [] && f.email != [] && f.projectType != [] && f.message != []
  {
    assert Get(f, Name) == f.name && Get(f, Email) == f.email;
    assert Get(f, ProjectType) == f.projectType && Get(f, Message) == f.message;
  }

  /** The submit button's text. */
  function ButtonLabel(s: FormState): (text: string)
    ensures text == "Sending..." <==> s.isSubmitting
    ensures text == "Message Sent!" <==> !s.isSubmitting && s.isSubmitted
    ensures text == "Send Message" <==> !ButtonDisabled(s)
  {
    if s.isSubmitting then "Sending..." else if s.isSubmitted then "Message Sent!" else "Send Message"
  }

  /** What can happen to the form. */
  datatype Event =
    | Edit(field: Field, value: string)
    | SubmitRequest
    | DelayElapsed
    | ResetElapsed

  /**
   * Whether a submit request reaches `handleSubmit`: the button is enabled
   * and each of the four fields is non-empty. Only an idle form accepts one.
   */
  function SubmitAccepted(s: FormState): (accepted: bool)
    ensures accepted <==> !ButtonDisabled(s) &&
                          s.form.name != [] && s.form.email != [] && s.form.projectType != [] && s.form.message != []
    ensures accepted ==> Inv(s) && PhaseOf(s) == Idle
  {
    AllFilledFields(s.form);
    !ButtonDisabled(s) && AllFilled(s.form)
  }

  /** Milliseconds of the simulated send, and of the success message before the reset. */
  const SendDelay: nat := 1500
  const ResetDelay: nat := 3000

  /**
   * The timer an event starts, by its delay: an accepted submit starts the
   * simulated send, the end of the send starts the reset, nothing else starts one.
   */
  function TimerStarted(s: FormState, e: Event): (ms: Option<nat>)
    ensures ms.Some? <==> (e.SubmitRequest? && SubmitAccepted(s)) || e.DelayElapsed?
    ensures ms == Some(SendDelay) <==> e.SubmitRequest? && SubmitAccepted(s)
    ensures ms == Some(ResetDelay) <==> e.DelayElapsed?
  {
    match e
    case SubmitRequest => if SubmitAccepted(s) then Some(SendDelay) else None
    case DelayElapsed => Some(ResetDelay)
    case _ => None
  }

  /** The state after one event. */
  function Next(s: FormState, e: Event): (t: FormState)
    ensures Inv(s) ==> Inv(t)
    ensures e.Edit? ==> t.form == With(s.form, e.field, e.value) &&
                        t.isSubmitting == s.isSubmitting && t.isSubmitted == s.isSubmitted
    ensures e.SubmitRequest? ==> t == if SubmitAccepted(s) then s.(isSubmitting := true) else s
    ensures e.DelayElapsed? ==> t.form == s.form && !t.isSubmitting && t.isSubmitted
    ensures e.ResetElapsed? ==> t.form == EmptyForm && t.isSubmitting == s.isSubmitting && !t.isSubmitted
  {
    match e
    case Edit(field, value) => s.(form := With(s.form, field, value))
    case SubmitRequest => if SubmitAccepted(s) then s.(isSubmitting := true) else s
    case DelayElapsed => s.(isSubmitting := false, isSubmitted := true)
    case ResetElapsed => s.(isSubmitted := false, form := EmptyForm)
  }

  /** The state after a sequence of events. */
  function Run(s: FormState, events: seq<Event>): (t: FormState)
    decreases |events|
  {
    if events == [] then s else Run(Next(s, events[0]), events[1..])
  }

  /** However the events interleave, submitting and submitted are never both set. */
  lemma {:induction false} RunKeepsInv(s: FormState, events: seq<Event>)
    requires Inv(s)
    ensures Inv(Run(s, events))
    decreases |events|
  {
    if events != [] {
      RunKeepsInv(Next(s, events[0]), events[1..]);
    }
  }

  /** While the button is disabled a submit request changes nothing. */
  lemma DisabledBlocksSubmit(s: FormState)
    requires ButtonDisabled(s)
    ensures Next(s, SubmitRequest) == s
  {
  }

  /** A complete idle form goes through sending and sent and comes back idle and empty. */
  lemma SubmitCycle(s: FormState)
    requires Inv(s) && PhaseOf(s) == Idle && AllFilled(s.form)
    ensures PhaseOf(Next(s, SubmitRequest)) == Submitting
    ensures PhaseOf(Run(s, [SubmitRequest, DelayElapsed])) == Submitted
    ensures Run(s, [SubmitRequest, DelayElapsed, ResetElapsed]) == Initial
  {
  }

  /** The form component as it holds its state: a record and two flags. */
  class ContactForm {
    var formState: FormFields
    var isSubmitting: bool
    var isSubmitted: bool

    function State(): FormState
      reads this
    {
      FormState(formState, isSubmitting, isSubmitted)
    }

    predicate Valid()
      reads this
    {
      Inv(State())
    }

    constructor ()
      ensures Valid() && State() == Initial
    {
      formState, isSubmitting, isSubmitted := EmptyForm, false, false;
    }

    /** An input's `onChange`. */
    method Edit(field: Field, value: string)
      requires Valid()
      modifies this
      ensures Valid() && State() == Next(old(State()), Event.Edit(field, value))
    {
      formState := With(formState, field, value);
    }

    /** The form's `submit`: `handleSubmit` runs up to its `await` when the browser lets the submission through. */
    method Submit() returns (accepted: bool, timer: Option<nat>)
      requires Valid()
      modifies this
      ensures Valid() && State() == Next(old(State()), SubmitRequest)
      ensures accepted == SubmitAccepted(old(State()))
      ensures timer == TimerStarted(old(State()), SubmitRequest)
    {
      accepted := !(isSubmitting || isSubmitted) && formState.name != [] && formState.email != []
                  && formState.projectType != [] && formState.message != [];
      timer := None;
      if accepted {
        isSubmitting := true;
        timer := Some(SendDelay);
      }
    }

    /** The awaited delay resolves: `handleSubmit` resumes. */
    method DelayElapsed() returns (timer: Option<nat>)
      requires Valid()
      modifies this
      ensures Valid() && State() == Next(old(State()), Event.DelayElapsed)
      ensures timer == TimerStarted(old(State()), Event.DelayElapsed)
    {
      isSubmitting := false;
      isSubmitted := true;
      timer := Some(ResetDelay);
    }

    /** The reset timeout fires. */
    method ResetElapsed()
      requires Valid()
      modifies this
      ensures Valid() && State() == Next(old(State()), Event.ResetElapsed)
    {
      isSubmitted := false;
      formState := EmptyForm;
    }
  }
}
