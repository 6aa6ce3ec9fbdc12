# Invoice creation form: validation and submission

This project models the submit handler of the dashboard's invoice-creation
form (`handleSubmit` in `app/ui/invoices/create-form.tsx`) in Dafny.

- **Validation.** Three raw form entries (`customerId`, `amount`, `status`)
  become an error record with optional keys `customerId`, `amount`, `status`
  and `form`. A form entry is `Option<string>`, where `None` means the form
  data has no such entry. The conversion `Number(amountValue)` is modelled by
  `AmountNumber.ToNumber`. It is an exact decimal parser into `real`: an
  optional sign, then digits with an optional fraction. `None` stands for NaN.
- **Submission.** The component state `errors` and `submitting` lives in the
  class `CreateForm.InvoiceForm`. `HandleSubmit` does what the source does,
  step by step. It clears the errors and validates. On failed validation it
  stores the field errors and returns. Otherwise it sets `submitting`,
  invokes the create action, then either navigates or stores the catch-all
  error, and finally resets `submitting`.
- **Create action and navigation.** The create action is replaced by a
  `CreateOutcome` parameter (`Resolves` or `Rejects`). Each invocation is
  recorded in `createCalls`, together with the `submitting` flag and the
  errors shown while it is awaited. Navigation is recorded in `location`.

The ensures of `HandleSubmit` never mention the previous `errors`. That is the
statement that no error from an earlier attempt survives a new one.

Behaviour of the source worth noting:

- `formData.get('status')` is falsy for an absent entry and also for the empty
  string. The status error therefore appears in both cases, just like the
  customer error.
- After an invalid attempt the handler does not touch `submitting`. The model
  says `submitting` keeps its old value then. It ends false after every run
  that starts from false, and always after a valid attempt.
- The amount input evidently intends amounts with at most two decimals
  (`step="0.01"`, `min="0.01"` and a `pattern`), but none of this reaches the
  handler. The form is `noValidate`, which switches off `step` and `min`. The
  `pattern` attribute never applies at all: it does not apply to a number
  input, and it is written with doubled backslashes. `MatchesAmountPattern` is
  the intended two-decimal format, not what the browser checks.
  `PatternNotEnforced` shows an amount (`0.001`) that passes validation but is
  not in that format. This is recorded, not corrected.
- `customerId` is only checked to be non-empty. Nothing checks that it names
  an existing customer.

## Model

| member | source | states |
|---|---|---|
| `AmountNumber.ToNumber` | app/ui/invoices/create-form.tsx:38 | converting the amount string gives a non-negative number unless the string starts with `-`, and then a non-positive one; the empty string gives 0, as in JavaScript |
| `AmountNumber.PositiveNumberIff` | app/ui/invoices/create-form.tsx:38 | a string converts to a number greater than 0 exactly when it is a decimal literal with no leading `-` that has a digit 1–9 |
| `AmountNumber.FormatCentsRoundTrip` | app/ui/invoices/create-form.tsx:104-116 | every amount written with two decimals is in the intended two-decimal format and converts back to exactly that amount |
| `AmountNumber.AmountPatternIff` | app/ui/invoices/create-form.tsx:108-115 | a string is in the intended two-decimal format `^\d+(\.\d{1,2})?$` exactly when it starts with a digit, every other character is a digit except at most one point, and that point is followed by one or two digits |
| `AmountNumber.PatternIsDecimal` | app/ui/invoices/create-form.tsx:108-115 | every string in the intended two-decimal format is a literal that the conversion accepts |
| `CreateForm.AmountRejected` | app/ui/invoices/create-form.tsx:38 | an absent or empty amount is always rejected; an accepted amount is present, non-empty, has no leading `-` and converts to a number |
| `CreateForm.AmountRule` | app/ui/invoices/create-form.tsx:37-40 | the amount check passes exactly when the entry is present and is a positive decimal literal |
| `CreateForm.AmountExamples` | app/ui/invoices/create-form.tsx:37-40 | absent, `""`, `"0"`, `"-5"` and `"abc"` fail the amount check; `"0.01"` and `"10.50"` pass |
| `CreateForm.PatternNotEnforced` | app/ui/invoices/create-form.tsx:64 | with `noValidate`, the amount `0.001` passes the handler's check although it is not in the intended two-decimal format |
| `CreateForm.ErrorState.IsEmpty` | app/ui/invoices/create-form.tsx:45 | the record has no keys exactly when it equals the empty record `{}` |
| `CreateForm.Validate` | app/ui/invoices/create-form.tsx:31-43 | each field gets its own message exactly when that field fails: customer or status absent or empty, amount not a positive decimal; `form` is never set; the record is empty exactly when all three fields pass |
| `CreateForm.FieldIsolation` | app/ui/invoices/create-form.tsx:31-43 | a field's error is the same whatever the other two fields hold |
| `CreateForm.ValidDraftExample` | app/ui/invoices/create-form.tsx:34-45 | the draft `c1`, `25.00`, `pending` produces no error |
| `CreateForm.InvoiceForm.constructor` | app/ui/invoices/create-form.tsx:23-24 | a new form has no errors, is not submitting, has not navigated and has made no create call |
| `CreateForm.InvoiceForm.InvokeCreate` | app/ui/invoices/create-form.tsx:54 | one create call is appended to the log, with the fields and the state visible while it is awaited; it resolves exactly when the outcome says so |
| `CreateForm.InvoiceForm.HandleSubmit` | app/ui/invoices/create-form.tsx:26-61 | on invalid input: `errors` is exactly the field errors, no create call, no navigation. On valid input: exactly one create call with the submitted fields, made while `submitting` is true and no error is shown. If the call succeeds: navigation to `/dashboard/invoices` and no error. If it fails: only the catch-all `form` error and no navigation. `submitting` is false at the end unless it was already true and the input was invalid. The button reads `Creating...` during the call and `Create Invoice` afterwards |
| `CreateForm.RetryAfterRejection` | app/ui/invoices/create-form.tsx:28-59 | after a rejected first attempt, the second attempt's errors are exactly its own field errors when it is invalid, only the catch-all error when it is valid and rejected, and none when it is valid and resolved; navigation happens only in that last case; `submitting` ends false; exactly one more create call happens if the second draft is valid |
| `CreateForm.LabelsOfSubmission` | app/ui/invoices/create-form.tsx:172 | on a fresh form, the button reads `Creating...` while the create call of a valid draft is awaited, no call happens for an invalid draft, and it reads `Create Invoice` once the handler returns |

## Left out

- The edit-page loader `app/dashboard/invoices/[id]/edit/page.tsx` is not part of this model. It consists of two parallel fetches and a not-found branch, all of which are I/O and concurrency.
- The markup (lines 63-179): icons, links, CSS classes and aria attributes are presentational. The only exception is the button label, which is modelled.
- `createInvoice`: a server action from app/lib/actions, which is not part of this model. It is modelled only as a resolve-or-reject outcome.
- A create call that never settles is not modelled. `CreateOutcome` is only `Resolves` or `Rejects`. In the source the `await` has no timeout, so such a call leaves the form with `submitting` true and no errors. That state is the one each `CreateCall` records as shown while the call is awaited.
- `e.preventDefault()` and the assignment to `window.location.href` are browser side effects. Navigation is modelled as the recorded `location` value.
- React's state-update scheduling and the `async`/`await` interleaving: one run of the handler is treated as a single sequential execution. Concurrent submissions are not modelled.
- AmountNumber.ToNumber: models only plain decimal literals. JavaScript's `Number` also trims whitespace and accepts exponents (`1e3`), hexadecimal, binary and octal forms (`0x10`) and `Infinity`, and it computes in IEEE-754 doubles rather than exact reals. Some amounts the source accepts, such as `" 5"` or `"1e3"`, are therefore rejected by the model. Conversely, a positive literal too small for a double, such as `0.` followed by 400 zeros and a `1`, becomes 0 in the source and fails its check, while the model accepts it.
- Form entries that are files rather than strings are not modelled.
