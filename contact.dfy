/**
 * The contact form (src/pages/Contact.js): four controlled fields, a status
 * banner and an in-flight flag, driven by field edits, a POST to the contact
 * endpoint whose outcome arrives later, and a 5000 ms status reset after success.
 */
module Contact {

  /** The body posted to the contact endpoint, and the form's controlled values. */
  datatype ContactForm = ContactForm(name: string, email: string, subject: string, message: string)

  /** The `name` attribute of the input an edit comes from. */
  datatype Field = Name | Email | Subject | Message

  const EmptyForm := ContactForm("", "", "", "")

  function FieldOf(f: ContactForm, field: Field): string {
    match field
    case Name => f.name
    case Email => f.email
    case Subject => f.subject
    case Message => f.message
  }

  /** The form after typing `value` into input `field`: only that field changes. */
  function WithField(f: ContactForm, field: Field, value: string): (r: ContactForm)
    ensures FieldOf(r, field) == value
    ensures forall g :: g != field ==> FieldOf(r, g) == FieldOf(f, g)
  {
    match field
    case Name => f.(name := value)
    case Email => f.(email := value)
    case Subject => f.(subject := value)
    case Message => f.(message := value)
  }

  /** Editing a field twice keeps only the second value. */
  lemma WithFieldTwice(f: ContactForm, field: Field, v: string, w: string)
    ensures WithField(WithField(f, field, v), field, w) == WithField(f, field, w)
  {
  }

  /** Writing back a field's own value changes nothing. */
  lemma WithFieldSame(f: ContactForm, field: Field)
    ensures WithField(f, field, FieldOf(f, field)) == f
  {
  }

  /** Edits of two different fields commute. */
  lemma WithFieldCommutes(f: ContactForm, a: Field, v: string, b: Field, w: string)
    requires a != b
    ensures WithField(WithField(f, a, v), b, w) == WithField(WithField(f, b, w), a, v)
  {
    var l := WithField(WithField(f, a, v), b, w);
    var r := WithField(WithField(f, b, w), a, v);
    assert forall g :: FieldOf(l, g) == FieldOf(r, g);
    assert FieldOf(l, Name) == FieldOf(r, Name) && FieldOf(l, Email) == FieldOf(r, Email);
    assert FieldOf(l, Subject) == FieldOf(r, Subject) && FieldOf(l, Message) == FieldOf(r, Message);
  }

  /** The banner state: whether it is shown, its colour, its text. */
  datatype FormStatus = FormStatus(submitted: bool, success: bool, message: string)

  const IdleStatus := FormStatus(false, false, "")
  const SuccessStatus :=
    FormStatus(true, true, "Your message has been sent successfully! I will get back to you soon.")
  const FailureStatus := FormStatus(true, false, "Failed to send message. Please try again later.")

  /** The banner is rendered exactly when the status says a submission happened. */
  function BannerShown(s: FormStatus): (b: bool)
    ensures b <==> s.submitted
  {
    s.submitted
  }

  /** After a settled submission the banner is shown, green for success and red for failure. */
  lemma SettledStatusShowsBanner(ok: bool)
    ensures BannerShown(if ok then SuccessStatus else FailureStatus)
    ensures (if ok then SuccessStatus else FailureStatus).success == ok
    ensures !BannerShown(IdleStatus)
  {
  }

  class ContactPage {
    var formData: ContactForm
    var formStatus: FormStatus
    var loading: bool
    /** The POSTs sent and not yet resolved. */
    var pendingPosts: nat
    /** The 5000 ms reset timers scheduled by successes and not yet fired. */
    var pendingResets: nat

    /** The status is always one of the three the handlers write, and `loading` is only
        set while some POST is unresolved. */
    ghost predicate Valid()
      reads this
    {
      && (formStatus == IdleStatus || formStatus == SuccessStatus || formStatus == FailureStatus)
      && (loading ==> pendingPosts > 0)
    }

    /** Mount: empty fields, no banner, not sending. */
    constructor ()
      ensures Valid()
      ensures formData == EmptyForm && formStatus == IdleStatus && !loading
      ensures pendingPosts == 0 && pendingResets == 0
    {
      formData := EmptyForm;
      formStatus := IdleStatus;
      loading := false;
      pendingPosts := 0;
      pendingResets := 0;
    }

    /** An edit of input `field`; inputs stay editable while a request is in flight. */
    method HandleChange(field: Field, value: string)
      requires Valid()
      modifies this
      ensures Valid()
      ensures formData == WithField(old(formData), field, value)
      ensures formStatus == old(formStatus) && loading == old(loading)
      ensures pendingPosts == old(pendingPosts) && pendingResets == old(pendingResets)
    {
      formData := WithField(formData, field, value);
    }

    /** The submit handler up to its `await`: sending starts and the posted body is the current form.
        The handler itself does not look at `loading`; the disabled button is the only guard,
        so a second POST may be sent while the first is unresolved. */
    method BeginSubmit() returns (body: ContactForm)
      requires Valid()
      modifies this
      ensures Valid()
      ensures loading && body == formData && pendingPosts == old(pendingPosts) + 1
      ensures formData == old(formData) && formStatus == old(formStatus) && pendingResets == old(pendingResets)
    {
      loading := true;
      pendingPosts := pendingPosts + 1;
      body := formData;
    }

    /** A POST resolved: sending stops, success banner, fields cleared, a reset timer is scheduled. */
    method PostSucceeded()
      requires Valid() && pendingPosts > 0
      modifies this
      ensures Valid()
      ensures !loading && formStatus == SuccessStatus && formData == EmptyForm
      ensures pendingPosts == old(pendingPosts) - 1 && pendingResets == old(pendingResets) + 1
    {
      loading := false;
      pendingPosts := pendingPosts - 1;
      formStatus := SuccessStatus;
      formData := EmptyForm;
      pendingResets := pendingResets + 1;
    }

    /** A POST was rejected: sending stops, failure banner, the fields are kept, no timer. */
    method PostFailed()
      requires Valid() && pendingPosts > 0
      modifies this
      ensures Valid()
      ensures !loading && formStatus == FailureStatus && pendingPosts == old(pendingPosts) - 1
      ensures formData == old(formData) && pendingResets == old(pendingResets)
    {
      loading := false;
      pendingPosts := pendingPosts - 1;
      formStatus := FailureStatus;
    }

    /** A reset timer fires: the banner is cleared whatever the status is by now. */
    method StatusResetTimerFires()
      requires Valid() && pendingResets > 0
      modifies this
      ensures Valid()
      ensures formStatus == IdleStatus && pendingResets == old(pendingResets) - 1
      ensures formData == old(formData) && loading == old(loading) && pendingPosts == old(pendingPosts)
    {
      formStatus := IdleStatus;
      pendingResets := pendingResets - 1;
    }

    /** The submit button is disabled exactly while a request is in flight. */
    function SubmitDisabled(): (b: bool)
      reads this
      ensures b <==> loading
    {
      loading
    }

    function ShowsBanner(): (b: bool)
      reads this
      ensures b <==> formStatus.submitted
    {
      BannerShown(formStatus)
    }
  }

  // ------------------------------------------------------------ scenarios

  const Filled := ContactForm("A", "a@b.com", "S", "M")

  /** Typing the four fields and submitting: they are posted, then cleared on success;
      the banner shows until the reset timer fires. */
  method SuccessScenario() returns (body: ContactForm, sending: bool, after: ContactForm,
                                    status: FormStatus, reset: FormStatus)
    ensures body == Filled && sending
    ensures after == EmptyForm && status == FormStatus(true, true, SuccessStatus.message)
    ensures reset == IdleStatus
  {
    var page := new ContactPage();
    FillForm(page);
    body := page.BeginSubmit();
    sending := page.SubmitDisabled();
    page.PostSucceeded();
    after, status := page.formData, page.formStatus;
    page.StatusResetTimerFires();
    reset := page.formStatus;
  }

  /** The same submission rejected: the fields are kept and the failure banner stays. */
  method FailureScenario() returns (after: ContactForm, status: FormStatus, enabled: bool)
    ensures after == Filled && status == FormStatus(true, false, FailureStatus.message) && enabled
  {
    var page := new ContactPage();
    FillForm(page);
    var _ := page.BeginSubmit();
    page.PostFailed();
    after, status := page.formData, page.formStatus;
    enabled := !page.SubmitDisabled();
  }

  /** Types the four fields of `Filled` into the form. */
  method FillForm(page: ContactPage)
    requires page.Valid()
    modifies page
    ensures page.Valid() && page.formData == Filled
    ensures page.formStatus == old(page.formStatus) && page.loading == old(page.loading)
    ensures page.pendingPosts == old(page.pendingPosts) && page.pendingResets == old(page.pendingResets)
  {
    page.HandleChange(Name, "A");
    page.HandleChange(Email, "a@b.com");
    page.HandleChange(Subject, "S");
    page.HandleChange(Message, "M");
  }

  /** A success, then a failed retry before the first reset timer fires: that timer clears
      the failure banner too. */
  method StaleResetScenario() returns (beforeReset: FormStatus, afterReset: FormStatus)
    ensures beforeReset == FailureStatus && afterReset == IdleStatus
  {
    var page := new ContactPage();
    FillForm(page);
    var _ := page.BeginSubmit();
    page.PostSucceeded();
    FillForm(page);
    var _ := page.BeginSubmit();
    page.PostFailed();
    beforeReset := page.formStatus;
    page.StatusResetTimerFires();
    afterReset := page.formStatus;
  }

  /** Two submits before the first answer (the button is bypassed): both bodies are posted, the
      first answer clears `loading` while the second POST is still unresolved, and the last answer
      decides the banner and the fields. */
  method DoubleSubmitScenario() returns (first: ContactForm, second: ContactForm, sendingBetween: bool,
                                         status: FormStatus, after: ContactForm)
    ensures first == Filled && second == Filled && !sendingBetween
    ensures status == SuccessStatus && after == EmptyForm
  {
    var page := new ContactPage();
    FillForm(page);
    first := page.BeginSubmit();
    second := page.BeginSubmit();
    page.PostFailed();
    sendingBetween := page.SubmitDisabled();
    page.PostSucceeded();
    status, after := page.formStatus, page.formData;
  }
}
