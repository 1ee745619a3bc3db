/** The add/edit form of src/Components/DomainForm.tsx: the validation rules
    of the `domain` field, the field state (the `isActive` default, pre-fill
    from `initialValues`, reset), and the submit dispatch of `onFinish`.
    Calls to the caller's `onSuccess`/`onCancel`, the create mutation and the
    toasts are returned as effects instead of being performed. */
module DomainForm {
  import opened Wrappers
  import opened DomainApi
  import Messages
  import Pattern = DomainPattern

  /** What `onFinish` receives: the two registered fields. */
  datatype FormValues = FormValues(domain: string, isActive: bool)

  // ---------------------------------------------------------------------
  // Validation of the `domain` field

  /** The outcome of the field's two rules: `required`, then `pattern`. */
  datatype FieldCheck = Accepted | Required | PatternMismatch

  const RequiredText := "Please input the domain!"
  const PatternText := "Please enter a valid domain URL!"

  /** An absent or empty value fails `required` (and the `pattern` rule skips
      empty values); any other value is accepted exactly when it matches the
      domain-URL pattern. */
  function ValidateDomain(value: Option<string>): (r: FieldCheck)
    ensures r == Required <==> value.None? || value.value == ""
    ensures r == Accepted <==> value.Some? && value.value != "" && Pattern.Matches(value.value)
  {
    if value.None? || value.value == "" then Required
    else if Pattern.Accepts(value.value) then Accepted
    else PatternMismatch
  }

  /** The message shown under the field: none for an accepted value, else
      the message of the rule that failed. */
  function CheckText(r: FieldCheck): (text: Option<string>)
    ensures text.None? <==> r == Accepted
    ensures r == Required ==> text == Some(RequiredText)
    ensures r == PatternMismatch ==> text == Some(PatternText)
  {
    match r
    case Accepted => None
    case Required => Some(RequiredText)
    case PatternMismatch => Some(PatternText)
  }

  /** The placeholder example passes both rules; the empty value, a string
      without a dot and an upper-case host do not. */
  lemma ValidationExamples()
    ensures ValidateDomain(Some("https://google.com")) == Accepted
    ensures ValidateDomain(Some("")) == Required && ValidateDomain(None) == Required
    ensures ValidateDomain(Some("not a url")) == PatternMismatch
    ensures ValidateDomain(Some("https://Google.com")) == PatternMismatch
    ensures CheckText(ValidateDomain(Some(""))) == Some(RequiredText)
    ensures CheckText(ValidateDomain(Some("not a url"))) == Some(PatternText)
    ensures CheckText(ValidateDomain(Some("https://google.com"))) == None
  {
    Pattern.PlaceholderAccepted();
    Pattern.NotAUrlRejected();
    Pattern.UppercaseHostsRejected();
  }

  // ---------------------------------------------------------------------
  // Submit dispatch

  datatype FormEffect =
    | Create(body: PartialDomain)
    | CallOnSuccess(values: FormValues)
    | CallOnCancel
    | Notify(message: Messages.Message)

  const AddedText := "Domain added successfully"
  const AddFailedText := "Failed to add domain"

  /** The body the form hands to the create mutation. */
  function CreateBody(values: FormValues, nowMs: int): PartialDomain {
    PartialDomain(None, Some(values.domain), Some(values.isActive), Some(Pending), Some(CreatedSeconds(nowMs)))
  }

  /** What `onFinish` does with the submitted values. With an `onSuccess`
      callback it only hands the values over. Without one it issues a single
      create request carrying the two fields, status `pending` and the time in
      seconds; on success it toasts and closes the panel, on failure it only
      toasts. `created` is the outcome of the request. */
  function FinishEffects(hasOnSuccess: bool, values: FormValues, nowMs: int, created: bool): (effects: seq<FormEffect>)
    ensures hasOnSuccess ==> effects == [CallOnSuccess(values)]
    ensures !hasOnSuccess ==> |effects| == (if created then 3 else 2) && effects[0].Create?
    ensures !hasOnSuccess && created ==> effects[2] == CallOnCancel
    ensures !hasOnSuccess ==>
      var b := effects[0].body;
      && FieldNames(b) == {"domain", "status", "isActive", "createdDate"}
      && b.domain == Some(values.domain) && b.isActive == Some(values.isActive)
      && b.status == Some(Pending) && b.createdDate == Some(CreatedSeconds(nowMs))
    ensures forall k :: 1 <= k < |effects| ==> !effects[k].Create? && !effects[k].CallOnSuccess?
    ensures CallOnCancel in effects <==> !hasOnSuccess && created
    ensures !hasOnSuccess ==> effects[1] == Notify(if created then Messages.Success(AddedText) else Messages.Error(AddFailedText))
  {
    if hasOnSuccess then [CallOnSuccess(values)]
    else if created then [Create(CreateBody(values, nowMs)), Notify(Messages.Success(AddedText)), CallOnCancel]
    else [Create(CreateBody(values, nowMs)), Notify(Messages.Error(AddFailedText))]
  }

  /** Whatever the form stamped, the request the create endpoint sends carries
      status `pending`, the submitted fields, and the endpoint's own time. */
  lemma CreateRequestIsPending(values: FormValues, formNowMs: int, apiNowMs: int, created: bool)
    ensures
      var sent := AddDomain(FinishEffects(false, values, formNowMs, created)[0].body, apiNowMs).request;
      && sent.verb == POST && sent.url == ""
      && sent.body == Some(PartialDomain(None, Some(values.domain), Some(values.isActive), Some(Pending), Some(CreatedSeconds(apiNowMs))))
  {
  }

  // ---------------------------------------------------------------------
  // Field state

  datatype Fields = Fields(domain: Option<string>, isActive: bool)

  /** The form's own initial values: no domain, active. */
  const Blank := Fields(None, true)

  /** The `initialValues` effect: copy `domain` and `isActive` from a present
      record; an absent one leaves the fields as they are. */
  function Prefill(f: Fields, initialValues: Option<Domain>): (g: Fields)
    ensures initialValues.None? ==> g == f
    ensures initialValues.Some? ==> g.domain == Some(initialValues.value.domain) && g.isActive == initialValues.value.isActive
  {
    if initialValues.Some? then Fields(Some(initialValues.value.domain), initialValues.value.isActive) else f
  }

  /** A fresh add form is active by default and has no domain yet. */
  lemma FreshAddFormIsActive()
    ensures Prefill(Blank, None).isActive && Prefill(Blank, None).domain == None
  {
  }

  /** One mounted form: its two fields and the props it was given last. */
  class DomainFormState {
    var domain: Option<string>
    var isActive: bool
    var initialValues: Option<Domain>
    var hasOnSuccess: bool

    function CurrentFields(): Fields
      reads this
    {
      Fields(domain, isActive)
    }

    /** Mounting: the form's initial values, then the pre-fill effect. */
    constructor (initialValues: Option<Domain>, hasOnSuccess: bool)
      ensures this.initialValues == initialValues && this.hasOnSuccess == hasOnSuccess
      ensures CurrentFields() == Prefill(Blank, initialValues)
    {
      this.initialValues := initialValues;
      this.hasOnSuccess := hasOnSuccess;
      var f := Prefill(Blank, initialValues);
      domain := f.domain;
      isActive := f.isActive;
    }

    /** New props; the pre-fill effect runs again only when `initialValues`
        changed. */
    method ReceiveProps(newInitialValues: Option<Domain>, newHasOnSuccess: bool)
      modifies this
      ensures initialValues == newInitialValues && hasOnSuccess == newHasOnSuccess
      ensures CurrentFields() ==
        if newInitialValues != old(initialValues) then Prefill(old(CurrentFields()), newInitialValues)
        else old(CurrentFields())
    {
      if newInitialValues != initialValues {
        var f := Prefill(CurrentFields(), newInitialValues);
        domain := f.domain;
        isActive := f.isActive;
      }
      initialValues := newInitialValues;
      hasOnSuccess := newHasOnSuccess;
    }

    /** The user types into the domain input. */
    method EditDomain(text: string)
      modifies this`domain
      ensures domain == Some(text)
    {
      domain := Some(text);
    }

    /** The user flips the switch. */
    method EditActive(value: bool)
      modifies this`isActive
      ensures isActive == value
    {
      isActive := value;
    }

    /** `form.resetFields()`: back to the form's own initial values. */
    method ResetFields()
      modifies this`domain, this`isActive
      ensures CurrentFields() == Blank
    {
      domain := None;
      isActive := true;
    }

    /** `onFinish`: the fields are reset only after a successful create; a
        failed create and a delegated submit keep what was entered. */
    method OnFinish(values: FormValues, nowMs: int, created: bool) returns (effects: seq<FormEffect>)
      modifies this`domain, this`isActive
      ensures effects == FinishEffects(hasOnSuccess, values, nowMs, created)
      ensures CurrentFields() == if !hasOnSuccess && created then Blank else old(CurrentFields())
    {
      if hasOnSuccess {
        effects := [CallOnSuccess(values)];
        return;
      }
      if created {
        effects := [Create(CreateBody(values, nowMs)), Notify(Messages.Success(AddedText))];
        ResetFields();
        effects := effects + [CallOnCancel];
      } else {
        effects := [Create(CreateBody(values, nowMs)), Notify(Messages.Error(AddFailedText))];
      }
    }

    /** Pressing the submit button: the rules run first, and only a value
        that passes them reaches `onFinish`. */
    method Submit(nowMs: int, created: bool) returns (check: FieldCheck, effects: seq<FormEffect>)
      modifies this`domain, this`isActive
      ensures check == ValidateDomain(old(domain))
      ensures check != Accepted ==> effects == [] && CurrentFields() == old(CurrentFields())
      ensures check == Accepted ==>
        && effects == FinishEffects(hasOnSuccess, FormValues(old(domain).value, old(isActive)), nowMs, created)
        && CurrentFields() == if !hasOnSuccess && created then Blank else old(CurrentFields())
    {
      check := ValidateDomain(domain);
      if check != Accepted {
        effects := [];
        return;
      }
      effects := OnFinish(FormValues(domain.value, isActive), nowMs, created);
    }
  }
}
