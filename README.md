# CustomerManager form controllers in Dafny

A model of the two form components of the CustomerManager UI, a React front end
over a customer REST backend:

- **CustomerSearch** searches customers by name, id and CPF (the Brazilian
  taxpayer number), lists the results and deletes a customer in two phases
  (select, then confirm or cancel).
- **CustomerForm** creates a customer after a duplicate pre-check on its CPF.

Each component's `useState` variables are the fields of a class
(`Search.CustomerSearch`, `Form.CustomerForm`). The exception is the search's
`email` and `birthday`, which are never set: they only shape the initial blank
row of the result list. Each event handler is a
method with a field-level `modifies` clause. Each method says the new value of
every field it may change. The HTTP client is replaced by a request log,
`requests: seq<Request>`, holding `Get(query)`, `Post(body)` and `Delete(id)`.
Every handler that calls the backend appends to it, and the backend's answer is
a parameter of the handler. So "exactly one POST" or "no request on this path"
is a statement about `requests`. `isValidCPF` comes from a module that is not
part of this model, so it is the constructor parameter
`isValidCpf: string -> bool` and the model uses no property of it.

Modules:

- `Api`: the records (`Customer`, `CustomerData`) and `Request`.
- `Text`: the digit filter `OnlyNumbers` (`str.replace(/[^0-9]/g, "")`) and the
  complete CPF mask `###.###.###-##`.
- `Query`: the two query-string templates. `Decode` is a partner for them: it
  splits a query at `&` and each piece at its first `=`. It is a raw split of the
  string the component builds. It does not drop a `#` fragment, and it does not
  percent-decode or turn `+` into a space, as an HTTP server would. The lemmas
  show that the search template splits into exactly the intended filters, in
  this order: the name always, the id and the CPF only when non-empty. This holds
  as long as no value contains `&`, because the source does not URL-encode the
  values.
- `Search`, `Form`: the two controllers. Their invariants are:
  - the stored CPF is always digits only;
  - in the form's log, no request is a DELETE;
  - in the form's log, every POST comes right after the pre-check GET for its
    own CPF.
- `Scenarios`: runs through several handlers in a row, each with a proved
  outcome: the create flow, the duplicate flow, a search by every filter, a
  search with an incomplete CPF, the two-phase delete, re-selecting a row, and
  the stale-CPF-error finding below.

Some of what the code does may surprise a reader of the UI; the model follows
the code:

- A search submitted with a CPF error leaves the result list as it was; it is
  not emptied.
- Confirming a delete flips the confirmation alert but keeps the stored name
  and id; only cancelling or the clear button clears them.
- Clearing the search form keeps the result list and the error message.
- Submitting the creation form with a CPF error still sends the pre-check GET.
- A confirmed delete removes the row selected last, not the first one. A second
  selection also flips the confirmation alert, so the dialog closes.

## Model

| member | source | states |
|---|---|---|
| `Text.OnlyNumbers` | src/components/CustomerSearch.tsx:93-95 | the filtered CPF holds only the characters `0`..`9` |
| `Text.OnlyNumbersLength` | src/components/CustomerSearch.tsx:94-95 | the filtered CPF is never longer than the input, and has the same length exactly when the input is all digits |
| `Text.OnlyNumbersOfDigits` | src/components/CustomerSearch.tsx:94 | a digits-only string passes through the filter unchanged |
| `Text.OnlyNumbersIdempotent` | src/components/CustomerSearch.tsx:175-176 | filtering twice is filtering once: the input shows the stored digits, and when the next edit passes them through the filter again, the digits already there are kept as they are |
| `Text.OnlyNumbersAppend` | src/components/CustomerForm.tsx:34 | the filter distributes over concatenation, so the digits keep their input order |
| `Text.OnlyNumbersKeepsEveryDigit` | src/components/CustomerForm.tsx:34 | every occurrence of every digit is kept, and no other character survives |
| `Text.MaskedCpfDigits` | src/components/CustomerSearch.tsx:97 | a complete 14-character masked entry filters to its 11 digits, with the separators removed |
| `Query.DecodeEncode` | src/components/CustomerSearch.tsx:70 | decoding an encoded parameter list gives back the list, for keys and values free of `&` and keys free of `=` |
| `Query.SearchQueryEncodes` | src/components/CustomerSearch.tsx:70 | the search template equals the encoding of the filters: the name always, then the id and the CPF only when non-empty |
| `Query.DecodeSearchQuery` | src/components/CustomerSearch.tsx:70 | the search query splits into exactly those filters when no value contains `&` |
| `Query.DecodePrecheckQuery` | src/components/CustomerForm.tsx:20 | the pre-check query carries the single filter `cpf` with the stored CPF |
| `Search.CustomerSearch.constructor` | src/components/CustomerSearch.tsx:14-107 | the initial state (declared at lines 14-25 and 106-107): empty inputs, every flag false, an empty message, a result list of one blank customer, no requests |
| `Search.CustomerSearch.SetId` | src/components/CustomerSearch.tsx:163 | the id input stores its value and nothing else changes |
| `Search.CustomerSearch.SetName` | src/components/CustomerSearch.tsx:183 | the name input stores its value and nothing else changes |
| `Search.CustomerSearch.HandleCustomerDeleteOnClick` | src/components/CustomerSearch.tsx:35-39 | selecting a row flips `alertWarn` and stores that row's name and id, with no request |
| `Search.CustomerSearch.AlertHandleToggle` | src/components/CustomerSearch.tsx:41-43 | `alertWarn` is negated and nothing else changes |
| `Search.CustomerSearch.AlertHandleCancelDelete` | src/components/CustomerSearch.tsx:45-49 | cancel sets `alertWarn` false and clears the stored name and id, with no request |
| `Search.CustomerSearch.CleanInputsOnClick` | src/components/CustomerSearch.tsx:51-62 | id, name, CPF and the stored name and id become empty, and all five flags become false; the results, the message and the log are unchanged |
| `Search.CustomerSearch.HandleSubmit` | src/components/CustomerSearch.tsx:64-77 | without a CPF error: one GET with the search template, the answer shown verbatim, `searchResult` true, `alertErrorCpf` false, and the GET splits into exactly `SearchParams(name, id, cpf)` when the name and id are free of `&` (the stored CPF is digits only). With a CPF error: no request, the message "CPF inválido!!", `alertErrorCpf` true, the results and `searchResult` unchanged |
| `Search.CustomerSearch.DeleteCustomer` | src/components/CustomerSearch.tsx:79-82 | one DELETE for the given id, then `searchResult` false |
| `Search.CustomerSearch.ConfirmDelete` | src/components/CustomerSearch.tsx:84-91 | exactly one DELETE, for the stored `alertCustomerId`; then `searchResult` false, `alertWarn` flipped, `alertSuccess` true |
| `Search.CustomerSearch.DismissSuccess` | src/components/CustomerSearch.tsx:88-90 | the timer callback sets `alertSuccess` false |
| `Search.CustomerSearch.HandleCpf` | src/components/CustomerSearch.tsx:93-105 | stores the digits of the entry. Any length other than 14 sets `errorCpf` and leaves `alertErrorCpf` alone. Length 14 sets `alertErrorCpf` false and `errorCpf` to its old value and-not valid |
| `Search.CustomerSearch.HandleCpfChecked` | src/components/CustomerSearch.tsx:97-104 | the corrected handler: `errorCpf` holds exactly when the entry is not a complete CPF that the validator accepts; the alert as in `HandleCpf` |
| `Form.CustomerForm.constructor` | src/components/CustomerForm.tsx:12-47 | the initial state (declared at lines 12-16 and 46-47): empty inputs, every flag false, no requests |
| `Form.CustomerForm.SetName` | src/components/CustomerForm.tsx:107 | the name input stores its value and nothing else changes |
| `Form.CustomerForm.SetEmail` | src/components/CustomerForm.tsx:113 | the e-mail input stores its value and nothing else changes |
| `Form.CustomerForm.SetBirthday` | src/components/CustomerForm.tsx:133 | the birthday input stores its value and nothing else changes |
| `Form.CustomerForm.HandleSubmit` | src/components/CustomerForm.tsx:18-31 | always sends the pre-check GET first. With a CPF error nothing else changes. With an empty answer: one POST with the current four fields, the success alert flipped, and the fields cleared. With a non-empty answer: no POST, the duplicate alert flipped, and the fields kept |
| `Form.CustomerForm.HandleCpf` | src/components/CustomerForm.tsx:33-44 | stores the digits of the entry. Any length other than 14 sets `errorCpf`. Length 14 sets `errorCpf` to its old value and-not valid. No alert flag is touched |
| `Form.CustomerForm.HandleCpfChecked` | src/components/CustomerForm.tsx:37-43 | the corrected handler: `errorCpf` holds exactly when the entry is not a complete CPF that the validator accepts |
| `Form.CustomerForm.AlertHandleErrorCpf` | src/components/CustomerForm.tsx:49-54 | the duplicate alert is negated and nothing else changes |
| `Form.CustomerForm.AlertHandleToggle` | src/components/CustomerForm.tsx:56-61 | the success alert is negated and nothing else changes |
| `Form.CustomerForm.DismissErrorCpf` | src/components/CustomerForm.tsx:51-53 | the timer callback sets the duplicate alert false |
| `Form.CustomerForm.DismissToggle` | src/components/CustomerForm.tsx:58-60 | the timer callback sets the success alert false |
| `Form.CustomerForm.CleanInputs` | src/components/CustomerForm.tsx:63-68 | the four inputs become empty; `errorCpf`, both alerts and the log are unchanged |
| `Form.AppendGetKeepsPrechecked` | src/components/CustomerForm.tsx:20 | appending a GET keeps the log invariant |
| `Form.AppendPostKeepsPrechecked` | src/components/CustomerForm.tsx:22-25 | a POST right after the pre-check for its own digits-only CPF keeps the log invariant |
| `Scenarios.CreateNewCustomer` | src/components/CustomerForm.tsx:18-26 | any name, e-mail and birthday plus a complete accepted CPF, with an empty pre-check, send exactly `[Get("?cpf="+digits), Post(name, email, digits, birthday)]` with 11 digits, then leave every field empty and the success alert open |
| `Scenarios.CreateDuplicateCustomer` | src/components/CustomerForm.tsx:27-29 | a non-empty pre-check sends only the GET, keeps all four fields and opens the duplicate alert |
| `Scenarios.CreateWithIncompleteCpf` | src/components/CustomerForm.tsx:20-21 | a partial CPF still sends the pre-check, and only it; no alert opens and the fields are kept |
| `Scenarios.SearchByAllFilters` | src/components/CustomerSearch.tsx:64-71 | name "Ana", id "7" and a complete accepted CPF send the single GET `?name_like=Ana&id=7&cpf=<digits>`; the answer is shown verbatim |
| `Scenarios.SearchWithIncompleteCpf` | src/components/CustomerSearch.tsx:73-76 | a partial CPF sends nothing, shows "CPF inválido!!", and keeps the initial blank row hidden |
| `Scenarios.SearchThenDelete` | src/components/CustomerSearch.tsx:35-91 | after a search by any name alone (one GET with the name-only query), select then cancel sends nothing; select then confirm sends one DELETE, for the row selected last; the results are hidden and the success alert shows |
| `Scenarios.ReselectClosesConfirmation` | src/components/CustomerSearch.tsx:35-43 | two selections in a row close the confirmation and store the second row, with no request |
| `Scenarios.StaleCpfErrorAdmitsRejectedCpf` | src/components/CustomerForm.tsx:37-43 | as written: an accepted entry followed by a rejected entry of the same length, then a submit with an empty pre-check, POSTs the typed fields with the rejected CPF |
| `Scenarios.CheckedCpfBlocksRejectedCpf` | src/components/CustomerForm.tsx:37-43 | with the corrected handler the same inputs raise the error, and the submit sends only the pre-check |
| `Scenarios.SearchStaleCpfErrorSearchesRejectedCpf` | src/components/CustomerSearch.tsx:97-104 | as written: an accepted entry followed by a rejected entry of the same length lets the search run, with one GET whose CPF filter is the rejected digits, and no error alert |
| `Scenarios.SearchCheckedCpfBlocksRejectedCpf` | src/components/CustomerSearch.tsx:97-104 | with the corrected handler the same inputs send nothing and show "CPF inválido!!" |
| `Scenarios.FormAlertsFlipBack` | src/components/CustomerForm.tsx:49-61 | two flips of either form alert restore the whole state |
| `Scenarios.SearchWarnFlipsBack` | src/components/CustomerSearch.tsx:41-43 | two flips of the delete confirmation restore the whole state |

## Findings

| source | as written | input that shows it | evidently intended | confidence | as-written member | corrected member |
|---|---|---|---|---|---|---|
| src/components/CustomerForm.tsx:37-43 | a complete entry that the validator rejects leaves `errorCpf` at its previous value | type an accepted CPF (`errorCpf` false), then replace it in one edit with a rejected entry of the same 14 characters (a paste over the whole field), then submit with an empty pre-check: the rejected CPF is POSTed. Since `errorCpf` starts false, a single paste of a rejected entry into a fresh form is enough | `errorCpf` is true whenever the current entry is not a complete accepted CPF, so the submit stops after the pre-check | medium, not executed | `Scenarios.StaleCpfErrorAdmitsRejectedCpf` | `Form.CustomerForm.HandleCpfChecked` |
| src/components/CustomerSearch.tsx:97-104 | a complete entry that the validator rejects leaves `errorCpf` at its previous value | type an accepted CPF, then replace it in one edit with a rejected entry of the same 14 characters, then submit: one GET goes out with the rejected digits as its `cpf` filter | `errorCpf` is true whenever the current entry is not a complete accepted CPF, so the submit shows "CPF inválido!!" and sends nothing | medium, not executed | `Scenarios.SearchStaleCpfErrorSearchesRejectedCpf` | `Search.CustomerSearch.HandleCpfChecked` |

The corrected handlers are proved to block the rejected entry in
`Scenarios.CheckedCpfBlocksRejectedCpf` and
`Scenarios.SearchCheckedCpfBlocksRejectedCpf`.

## Left out

- JSX rendering, the MUI components, icons and layout: these are presentation only.
- The edit button's `alert("edit")` placeholder: it does nothing to the state.
- The HTTP client and its promises. Every call is one entry in `requests`, and
  the answer is a handler parameter. Network failures are not modelled; the
  source does not handle them.
- The `setTimeout` auto-dismiss delays (3 s and 4 s). Each callback is a
  `Dismiss…` method that a caller may invoke at any time.
- Asynchronous interleaving: each handler is one sequential step. This leaves
  out a late answer to an earlier search overwriting a newer one. It also
  leaves out the fact that `confirmDelete` does not await `deleteCustomer`: in
  the source, `searchResult` turns false only once the DELETE resolves, but
  the final state is the same.
- React batching: the search submit empties the result list before it awaits
  the answer. Only the final state, the answer itself, is stated. The second
  `setCpf` in each CPF handler writes the value the first one wrote, so it
  changes nothing and is left out.
- The internals of `isValidCPF`: src/snippets/isValidCpf is not part of this
  model, so the validator is any function on strings.
- The masked input component is not part of this model. `Text.IsMaskedCpf`
  describes only the complete entry it produces.
- JavaScript `length` counts UTF-16 code units. The model counts characters,
  so the two differ only for characters outside the Basic Multilingual Plane.
- URL encoding: the source does not escape the query values, and the
  round-trip lemmas need values free of `&`. A stored CPF is digits only, so it
  always meets this.
- What an HTTP server makes of a query: `Query.Decode` splits the raw string.
  A name or id holding `#` is cut short on the wire (the rest is a fragment the
  client does not send). A `%` or `+` is decoded by the server. The model
  captures neither.
- The browser's own form validation: inputs that are required by default, and
  the `type="email"` check. The input component that sets them is not part of
  this model, so `Form.CustomerForm.HandleSubmit` can be called with any field
  values, including empty ones. The scenarios take the field values as
  parameters.
