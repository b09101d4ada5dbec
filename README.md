# Rig customer form, modelled in Dafny

The Rig web part shows a form over a SharePoint list of offshore customers
(`Customer`: Id, name, address, numbers of rigs, jack-ups and MODUs, a site
URL). Its controller keeps the loaded customers, a dropdown derived from them,
the selected customer, a draft (`formData`), an add/edit mode flag, a message
and a busy flag. The user selects a customer to edit or switches to add mode,
edits the draft field by field, and submits. Submitting checks the required
fields. It then updates the selected customer when its Id is truthy. Otherwise,
in add mode, it adds a new customer unless the name is already loaded in any
letter case. On success it resets the draft and reloads the list.

Files:

- `optional.dfy`: `Option`, standing for `undefined`/`null` slots.
- `rig_props.dfy`: the `Customer` record of IRigProps.ts.
- `js_builtins.dfy`: the JavaScript built-ins the form depends on, and
  JavaScript truthiness. `toLowerCase` is restricted to ASCII letters.
  `Number#toString` is modelled for integers written in plain digits, which
  is how JavaScript writes integers below 10^21 in magnitude. `parseInt`
  without a radix is modelled for every text, with exact integer values.
  The file proves that `parseInt` reads back a plain-digit numeral, even
  with trailing text.
- `rig.dfy`: the controller. Its pure decisions are functions whose contracts
  state what the source promises. `Decide` is the submit decision,
  `SubmitEnabled` the button's enabled test, `FirstWithId` the selection
  search, `DropdownOptions` the dropdown. The component state is the class
  `RigForm`, one method per handler, and `Valid()` is the invariant every
  handler keeps. Under `Valid()` the dropdown lists the loaded customers in
  order, add mode never has a selection, and a selection always has an Id.
- `site_url_finding.dfy`: the draft as a run-time JavaScript object. It shows
  what the Site URL input actually stores (see Findings).

The list calls are abstract. `LoadCustomers` takes what the list returned,
or `None` when the call threw. `HandleSubmit` takes whether its add or update
call succeeds. It returns the call it issued (`Update(id, payload)`,
`Add(payload)` or `NoCall`) and whether it started a reload.

Where the code's behaviour may surprise a reader, the model follows it:

- The three counts are not kept non-negative. `parseInt("-3")` gives -3 and
  the form stores it.
- The update branch needs a *truthy* Id. A selected customer with Id 0 is
  never updated. In edit mode its submit issues no call and still resets the
  form (`ZeroIdIsNeverUpdated`).
- A submit in edit mode without a truthy selected Id issues no call. It still
  resets the form and clears the message; no success message is shown.
- A customer without an Id gets the dropdown key 0. Choosing that option
  never selects that customer, because `undefined === 0` is false. It selects
  the first loaded customer whose Id is 0, if there is one, and otherwise
  nothing.

## Model

| member | source | states |
|---|---|---|
| `JsBuiltins.ToLower` | Rig.tsx:72 | `toLowerCase` keeps the length and lowers each character on its own |
| `JsBuiltins.ToLowerIdempotent` | Rig.tsx:72 | lower-casing an already lower-cased name changes nothing |
| `JsBuiltins.NatToDecimal` | Rig.tsx:185 | the numeral a count input shows is non-empty, all decimal digits, and has no leading zero |
| `JsBuiltins.DecimalString` | Rig.tsx:185 | `toString()` of a count is non-empty, starts with a minus sign exactly when the count is negative, and is decimal digits after that sign |
| `JsBuiltins.TrimStart` | Rig.tsx:186 | `parseInt` drops exactly the leading ECMAScript white space: what remains is a suffix and does not start with white space |
| `JsBuiltins.LeadingDigits` | Rig.tsx:186 | `parseInt` reads the longest prefix of digits of its radix: a prefix, all digits, followed by a non-digit or the end |
| `JsBuiltins.ParseInt` | Rig.tsx:186 | `parseInt` gives a number only when the text after white space and one sign starts with a decimal digit, and always then except for a `0x` prefix with no hex digit after it; only a minus sign gives a negative number |
| `JsBuiltins.CoerceCount` | Rig.tsx:186-200 | the coercion of a count's text is always a number: 0 for empty or undefined text, otherwise the value `parseInt` reads, and 0 where it reads NaN |
| `JsBuiltins.ParseDecimalPrefix` | Rig.tsx:185-186 | `parseInt(n.toString() + rest)` is `n` for every integer `n`, when `rest` does not continue the numeral ("12abc", "12.5" and "12e3" give 12) |
| `JsBuiltins.CoerceCountOfDecimal` | Rig.tsx:185-186 | the coercion reads back every displayed count unchanged |
| `Rig.OptionKey` | Rig.tsx:38 | an option's key is the customer's Id when that Id is truthy, and 0 otherwise |
| `Rig.DropdownOptions` | Rig.tsx:38 | one option per loaded customer, in order; key the Id (0 when absent), text the name |
| `Rig.FirstWithId` | Rig.tsx:56-61 | the search finds the first customer whose Id equals the key, or reports that none has it |
| `Rig.HasRequiredFields` | Rig.tsx:80 | the required-fields guard fails exactly when the name or the address is a falsy string |
| `Rig.TruthyId` | Rig.tsx:92-94 | an Id is used for the update exactly when `selectedCustomer?.Id` is truthy in JavaScript, and it is the number read there |
| `Rig.MakePayload` | Rig.tsx:95-100 | the add and update bodies carry every draft field but the Id, so the draft can be rebuilt from them; the URL is `null` exactly when it is empty (same at lines 110-115) |
| `Rig.WithEdit` | Rig.tsx:46-51 | a field change sets that field and leaves the Id and every other field as they were |
| `Rig.EditFor` | Rig.tsx:170-206 | each input's callback writes the field that input shows: the text (empty when undefined) for name, address and URL, the count coercion for the number inputs |
| `Rig.WithEditChangesOneField` | Rig.tsx:46-51 | an edit writes its value into the field of its input; the Id and what every other input shows keep their values |
| `Rig.InputChangesOnlyItsField` | Rig.tsx:167-207 | after a change in one input, that input shows its new text or coerced count, and the Id and every other input are as before |
| `Rig.Decide` | Rig.tsx:79-118 | submit stops with a warning exactly when name or address is empty. Otherwise it updates the selected Id exactly when that Id is truthy, whatever the mode. It stops at the duplicate guard, or adds, exactly in add mode without a truthy Id, depending on the case-insensitive duplicate check. Both bodies are the draft's payload |
| `Rig.SuccessNotice` | Rig.tsx:102-117 | a submit past its guards ends with a success message naming its call (updated or added), and with none when it issued no call |
| `Rig.SubmitEnabled` | Rig.tsx:270 | an enabled button means not busy; in add mode it means a name that is no duplicate, so submit never meets the duplicate guard; in edit mode it means a selection. Conversely, an add or update the decision would issue is never disabled while idle |
| `Rig.LoadedNameIsDuplicate` | Rig.tsx:70-77 | a name equal to a loaded name up to letter case is a duplicate |
| `Rig.DuplicateIgnoresCase` | Rig.tsx:70-77 | the duplicate check gives the same answer for a name and its lower-cased form |
| `Rig.NoDuplicateInEmptyList` | Rig.tsx:70-77 | nothing is a duplicate when no customer is loaded |
| `Rig.OptionSelectsItsCustomer` | Rig.tsx:38-61 | choosing the option of a customer with an Id selects a customer with that Id at or before it; with distinct Ids, that customer |
| `Rig.ZeroIdIsNeverUpdated` | Rig.tsx:92-118 | a selection with Id 0 is never updated: no call in edit mode, treated as no selection in add mode |
| `Rig.UpdateIgnoresMode` | Rig.tsx:92-103 | with a truthy selected Id, add mode and edit mode submit the same update |
| `Rig.EditsCommute` | Rig.tsx:46-51 | edits of different fields commute; a later edit of the same field overrides an earlier one |
| `Rig.RetypingCountKeepsDraft` | Rig.tsx:185-200 | re-entering the number a count input shows leaves the draft unchanged |
| `Rig.RetypedCountKeepsDraft` | Rig.tsx:186-200 | any text typed into a count input that coerces to the count it shows leaves the draft unchanged |
| `Rig.RigForm.constructor` | Rig.tsx:12-25 | the initial state: nothing loaded, nothing selected, the empty draft, edit mode, no message, not busy |
| `Rig.RigForm.LoadCustomers` | Rig.tsx:33-44 | a returned list replaces the customers and the dropdown together; a failed call shows the load error and keeps both; busy ends false |
| `Rig.RigForm.HandleInputChange` | Rig.tsx:46-51 | only the draft changes, by the edit; selection, customers and mode are framed out |
| `Rig.RigForm.HandleTextChange` | Rig.tsx:170-206 | an input's change edits only the draft, by that input's coerced edit |
| `Rig.RigForm.HandleCustomerSelect` | Rig.tsx:53-68 | a matching option makes the first customer with that Id the selection and the draft and leaves add mode; no option or no match changes nothing; customers are never touched |
| `Rig.RigForm.CheckDuplicateCustomer` | Rig.tsx:70-77 | the scan answers true exactly when some loaded name equals the given one after lower-casing both |
| `Rig.RigForm.ResetForm` | Rig.tsx:129-139 | the draft becomes the empty draft and the selection is cleared; the new state does not depend on the old one, so a second reset changes nothing |
| `Rig.RigForm.OpenAddForm` | Rig.tsx:157 | "Add New Customer" enters add mode with an empty draft and no selection |
| `Rig.RigForm.CloseAddForm` | Rig.tsx:155 | "Edit Existing Customers" (and "Cancel Add", line 277) leave add mode with an empty draft and no selection |
| `Rig.RigForm.CancelEdit` | Rig.tsx:274 | "Cancel Edit" clears the selection and the draft and keeps the mode |
| `Rig.RigForm.HandleSubmit` | Rig.tsx:79-127 | the call issued is the one `Decide` takes. A guard that stops the submit, or a call that throws, keeps draft, selection and mode and shows its message. A submit that gets past them starts a reload, empties the draft, clears the selection and leaves add mode. Customers are unchanged and `Valid()` is kept |
| `SiteUrlFinding.Encode` | IRigProps.ts:12-20 | a typed draft as a JavaScript object holds its URL as a `{ Url }` object |
| `SiteUrlFinding.InputChangeAsWritten` | Rig.tsx:46-51 | as written, the handler sets only the given key and stores an object argument as its bare `Url` string |
| `SiteUrlFinding.InputChangeCorrected` | Rig.tsx:46-51 | corrected, the handler sets only the given key and stores an object argument whole |
| `SiteUrlFinding.PayloadSiteUrl` | Rig.tsx:100 | the payload sends a link exactly when `SiteURLs` is an object with a non-empty `Url`, and then that URL |
| `SiteUrlFinding.TypedUrlIsDroppedAsWritten` | Rig.tsx:206 | as written, after any text is typed into the Site URL input, the payload's link is `null` |
| `SiteUrlFinding.RetypedUrlClearedAsWritten` | Rig.tsx:94-100 | as written, retyping a stored URL makes the next update clear it |
| `SiteUrlFinding.TypedUrlIsSentCorrected` | Rig.tsx:46-51 | corrected, the payload carries the typed URL, and `null` only for the empty one |
| `SiteUrlFinding.TypedEditIsCorrected` | Rig.tsx:46-51 | the controller's typed edit `Rig.WithEdit` is the corrected handler, and its payload agrees with the object-level one |

## Left out

- The SharePoint calls (`items()`, `items.add`, `items.getById(id).update`) and the `spfi`/`SPFx` setup: they are foreign I/O. The model passes in their results (`LoadCustomers`) or their success (`HandleSubmit`).
- Asynchrony: every handler is one atomic step. The un-awaited `loadCustomers()` after a submit is the `reload` result, not a nested load. Interleavings and late responses are not modelled, and `loading` holds only its value after each handler.
- The initial `useEffect` load: it is one `LoadCustomers` step.
- Rendering, styling, `props.description` and the message bar's dismiss button: they are UI. Of the markup, only the enabled test of the submit button (line 270) and the callbacks of the inputs and buttons are modelled.
- Message texts, including the `${error}` interpolation: `Notice` names each message, and `Notice.Kind` gives its severity.
- The `isNaN` guard (line 84): counts are integers in the model, and the coercion never yields NaN, so the guard never fires.
- JsBuiltins.ToLower: lowers only the ASCII letters. Full Unicode case mapping is not modelled.
- JsBuiltins.CoerceCount: values are exact integers. JavaScript rounds parsed numbers beyond 2^53 to the nearest double.
- JsBuiltins.NatToDecimal: writes plain digits at every size. JavaScript writes numbers of 10^21 and more in exponent form (`1e+21`), so the model of `toString` is exact only below 10^21.
- JsBuiltins.DecimalString: exact only between -10^21 and 10^21, for the same reason.
- JsBuiltins.ParseDecimalPrefix: holds for JavaScript only below 10^21 in magnitude. From there on `toString` gives exponent form, and `parseInt` reads only its leading digits (`parseInt("1e+21")` is 1).
- JsBuiltins.CoerceCountOfDecimal: holds for JavaScript only below 10^21 in magnitude, as `ParseDecimalPrefix`.
- Rig.RetypingCountKeepsDraft: holds for JavaScript only for counts below 10^21 in magnitude. Retyping a larger count as displayed stores only the leading digits of its exponent form.
- Rig.WithEdit: models the handler as intended, storing the Site URL input's `{ Url }` object whole. The controller's `HandleInputChange` and `HandleTextChange` use it. The handler as written stores the bare `Url` string; `SiteUrlFinding.InputChangeAsWritten` models that, and Findings gives the consequence.
- The host plumbing of IRigProps.ts (`sp`, `context`, `siteUrl`, `listName`): it is opaque to the form.
- Rig.RigForm.HandleInputChange: takes typed edits of the six editable fields. No input edits the Id, and no input passes a value of the wrong type. `SiteUrlFinding.InputChangeAsWritten` models the untyped handler over every key.
- Rig.RigForm.ResetForm: idempotence is stated by its postcondition, not by a separate lemma, because lemmas cannot call methods.

## Findings

| source | as written | input that shows it | evidently intended | confidence | as-written member | corrected member |
|---|---|---|---|---|---|---|
| Rig.tsx:46-51 | the handler replaces an object argument by its `Url` string. The Site URL input (line 206) passes `{ Url: text }`, so `SiteURLs` becomes a bare string, and the payload's `formData.SiteURLs.Url` (lines 100, 115) is `undefined` | type `https://acme.example` into Site URLs, then submit: the payload's `SiteURLs` is `null`, and for an update the stored link is cleared | store `{ Url: text }` under `SiteURLs`, so the typed URL is sent | high; not executed | `SiteUrlFinding.TypedUrlIsDroppedAsWritten` | `SiteUrlFinding.TypedUrlIsSentCorrected` |
