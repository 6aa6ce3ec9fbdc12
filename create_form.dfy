/**
  The invoice-creation form: its client-side validation of the three fields
  and its submit handler, which updates the component state `errors` and
  `submitting` around one call of the external create action.
 */
module CreateForm {
  import opened Wrappers
  import opened AmountNumber

  const CustomerMessage := "Please select a customer."
  const AmountMessage := "Please enter an amount greater than $0."
  const StatusMessage := "Please select an invoice status."
  const CreateFailedMessage := "Error creating invoice. Try again."
  const InvoicesPath := "/dashboard/invoices"
  const CreatingLabel := "Creating..."
  const CreateLabel := "Create Invoice"

  /** The error record: one optional message per field and a catch-all `form`. */
  datatype ErrorState = ErrorState(
    customerId: Option<string>,
    amount: Option<string>,
    status: Option<string>,
    form: Option<string>)
  {
    /** The record has no keys, so `Object.keys` of it has length 0. */
    function IsEmpty(): (r: bool)
      ensures r <==> this == ErrorState(None, None, None, None)
    {
      customerId.None? && amount.None? && status.None? && form.None?
    }
  }

  const NoErrors := ErrorState(None, None, None, None)

  /** The catch-all error set when the create action fails. */
  const FormFailure := NoErrors.(form := Some(CreateFailedMessage))

  /** The submitted entries; `None` is an entry the form data does not hold. */
  datatype FormFields = FormFields(customerId: Option<string>, amount: Option<string>, status: Option<string>)

  /** What the external create action does when it is invoked. */
  datatype CreateOutcome = Resolves | Rejects

  /** One invocation of the create action, with the state the form shows while
      it is awaited. */
  datatype CreateCall = CreateCall(fields: FormFields, submittingDuring: bool, errorsDuring: ErrorState)

  /** JavaScript truthiness of a form entry: present and not the empty string. */
  predicate Truthy(v: Option<string>)
  {
    v.Some? && v.value != ""
  }

  /** The amount check: absent or empty, NaN, or not greater than zero. */
  function AmountRejected(v: Option<string>): (r: bool)
    ensures v == None || v == Some("") ==> r
    ensures !r ==> v.Some? && v.value != "" && v.value[0] != '-' && ToNumber(v.value).Some?
  {
    !Truthy(v) || ToNumber(v.value).None? || ToNumber(v.value).value <= 0.0
  }

  /** A positive decimal amount, described by its characters alone. */
  predicate PositiveDecimal(s: string)
  {
    ToNumber(s).Some? && s != [] && s[0] != '-' && HasNonzeroDigit(s)
  }

  /** The amount error appears exactly when the entry is absent or is not a
      positive decimal literal. */
  lemma AmountRule(v: Option<string>)
    ensures !AmountRejected(v) <==> v.Some? && PositiveDecimal(v.value)
  {
    if v.Some? {
      PositiveNumberIff(v.value);
    }
  }

  /** The amounts named as examples of the rule. */
  lemma AmountExamples()
    ensures AmountRejected(None)
    ensures AmountRejected(Some("")) && AmountRejected(Some("0"))
    ensures AmountRejected(Some("-5")) && AmountRejected(Some("abc"))
    ensures !AmountRejected(Some("0.01")) && !AmountRejected(Some("10.50"))
  {
  }

  /** The markup asks for at most two decimals, but the handler does not:
      `0.001` passes validation although it is not in the intended two-decimal format. */
  lemma PatternNotEnforced()
    ensures !AmountRejected(Some("0.001")) && !MatchesAmountPattern("0.001")
  {
  }

  /** The field checks, building the record by conditional assignment. */
  function Validate(f: FormFields): (r: ErrorState)
    ensures r.form == None
    ensures r.customerId == (if f.customerId == None || f.customerId == Some("") then Some(CustomerMessage) else None)
    ensures r.amount == (if f.amount.Some? && PositiveDecimal(f.amount.value) then None else Some(AmountMessage))
    ensures r.status == (if f.status == None || f.status == Some("") then Some(StatusMessage) else None)
    ensures r.IsEmpty() <==>
      f.customerId.Some? && f.customerId.value != "" &&
      f.amount.Some? && PositiveDecimal(f.amount.value) &&
      f.status.Some? && f.status.value != ""
  {
    AmountRule(f.amount);
    var e0 := NoErrors;
    var e1 := if !Truthy(f.customerId) then e0.(customerId := Some(CustomerMessage)) else e0;
    var e2 := if AmountRejected(f.amount) then e1.(amount := Some(AmountMessage)) else e1;
    if !Truthy(f.status) then e2.(status := Some(StatusMessage)) else e2
  }

  /** Each field's error depends on that field alone. */
  lemma FieldIsolation(f: FormFields, g: FormFields)
    ensures f.customerId == g.customerId ==> Validate(f).customerId == Validate(g).customerId
    ensures f.amount == g.amount ==> Validate(f).amount == Validate(g).amount
    ensures f.status == g.status ==> Validate(f).status == Validate(g).status
  {
  }

  /** A complete draft passes all three checks, so the handler goes on to the
      create action. */
  lemma ValidDraftExample()
    ensures Validate(FormFields(Some("c1"), Some("25.00"), Some("pending"))).IsEmpty()
  {
  }

  /** The submit button's label. */
  function SubmitLabel(submitting: bool): (r: string)
    ensures r == CreatingLabel <==> submitting
    ensures r == CreateLabel <==> !submitting
  {
    if submitting then CreatingLabel else CreateLabel
  }

  /** The component state of the form. `location` is the last navigation the
      handler requested and `createCalls` the log of create-action invocations. */
  class InvoiceForm {
    var errors: ErrorState
    var submitting: bool
    var location: Option<string>
    var createCalls: seq<CreateCall>

    constructor ()
      ensures errors == NoErrors && !submitting
      ensures location == None && createCalls == []
    {
      errors := NoErrors;
      submitting := false;
      location := None;
      createCalls := [];
    }

    /** Invokes the create action and waits for it to settle. */
    method InvokeCreate(fields: FormFields, outcome: CreateOutcome) returns (resolved: bool)
      modifies this`createCalls
      ensures createCalls == old(createCalls) + [CreateCall(fields, submitting, errors)]
      ensures resolved <==> outcome == Resolves
    {
      createCalls := createCalls + [CreateCall(fields, submitting, errors)];
      resolved := outcome == Resolves;
    }

    /** One run of the submit handler; `outcome` decides the create action. */
    method HandleSubmit(fields: FormFields, outcome: CreateOutcome)
      modifies this
      ensures var v := Validate(fields);
        !v.IsEmpty() ==>
          errors == v && createCalls == old(createCalls) && location == old(location)
      ensures Validate(fields).IsEmpty() ==>
        createCalls == old(createCalls) + [CreateCall(fields, true, NoErrors)]
      ensures Validate(fields).IsEmpty() && outcome == Resolves ==>
        errors == NoErrors && location == Some(InvoicesPath)
      ensures Validate(fields).IsEmpty() && outcome == Rejects ==>
        errors == FormFailure && location == old(location)
      ensures submitting <==> old(submitting) && !Validate(fields).IsEmpty()
      ensures Validate(fields).IsEmpty() ==>
        SubmitLabel(createCalls[|old(createCalls)|].submittingDuring) == CreatingLabel
      ensures !old(submitting) ==> SubmitLabel(submitting) == CreateLabel
    {
      errors := NoErrors;
      var newErrors := Validate(fields);
      if !newErrors.IsEmpty() {
        errors := newErrors;
        return;
      }
      submitting := true;
      var resolved := InvokeCreate(fields, outcome);
      if resolved {
        location := Some(InvoicesPath);
      } else {
        errors := FormFailure;
      }
      submitting := false;
    }
  }

  /** A fresh form submitted twice, the first time with valid fields that the
      create action rejects: the second attempt's result keeps nothing of the
      first's catch-all error. */
  method RetryAfterRejection(first: FormFields, second: FormFields, outcome: CreateOutcome)
    returns (errors: ErrorState, submitting: bool, location: Option<string>, calls: nat)
    requires Validate(first).IsEmpty()
    ensures !submitting
    ensures errors.form.Some? <==> Validate(second).IsEmpty() && outcome == Rejects
    ensures !Validate(second).IsEmpty() ==> errors == Validate(second)
    ensures Validate(second).IsEmpty() ==> errors == (if outcome == Rejects then FormFailure else NoErrors)
    ensures location == (if Validate(second).IsEmpty() && outcome == Resolves then Some(InvoicesPath) else None)
    ensures calls == if Validate(second).IsEmpty() then 2 else 1
  {
    var form := new InvoiceForm();
    form.HandleSubmit(first, Rejects);
    assert form.errors == FormFailure;
    form.HandleSubmit(second, outcome);
    errors, submitting, location, calls := form.errors, form.submitting, form.location, |form.createCalls|;
  }

  /** The button label a fresh form shows while the create action of one
      submission is awaited (`None` when no call is made), and after the
      handler returns. */
  method LabelsOfSubmission(fields: FormFields, outcome: CreateOutcome)
    returns (during: Option<string>, after: string)
    ensures during == (if Validate(fields).IsEmpty() then Some(CreatingLabel) else None)
    ensures after == CreateLabel
  {
    var form := new InvoiceForm();
    form.HandleSubmit(fields, outcome);
    if |form.createCalls| > 0 {
      during := Some(SubmitLabel(form.createCalls[0].submittingDuring));
    } else {
      during := None;
    }
    after := SubmitLabel(form.submitting);
  }
}
