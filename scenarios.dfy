/** Runs of the two components through several handlers in a row, as a user would
    drive them, with what each run sends to the backend and leaves on screen. */
module Scenarios {
  import opened Api
  import opened Text
  import opened Query
  import opened Search
  import opened Form

  /** Creating a new customer with a complete, accepted CPF entry: the pre-check for
      its eleven digits comes back empty, so exactly one POST with the typed fields
      follows it, the success alert opens and the inputs are emptied. */
  method CreateNewCustomer(isValidCpf: string -> bool, name: string, email: string, masked: string, birthday: string)
    returns (final: FormState)
    requires IsMaskedCpf(masked) && isValidCpf(masked)
    ensures |OnlyNumbers(masked)| == 11
    ensures final.requests == [Get("?cpf=" + OnlyNumbers(masked)),
                               Post(CustomerData(name, email, OnlyNumbers(masked), birthday))]
    ensures final.name == "" && final.email == "" && final.cpf == "" && final.birthday == ""
    ensures final.alertToggleOpen && !final.alertErrorCpf && !final.errorCpf
  {
    MaskedCpfDigits(masked);
    var form := new CustomerForm(isValidCpf);
    form.SetName(name);
    form.SetEmail(email);
    form.HandleCpf(masked);
    form.SetBirthday(birthday);
    form.HandleSubmit([]);
    final := form.State();
  }

  /** Creating a customer whose CPF is already registered: the pre-check finds it,
      no POST is sent, the duplicate alert opens and the inputs are kept. */
  method CreateDuplicateCustomer(isValidCpf: string -> bool, name: string, email: string, masked: string,
                                 birthday: string, existing: Customer)
    returns (final: FormState)
    requires IsMaskedCpf(masked) && isValidCpf(masked)
    ensures final.requests == [Get("?cpf=" + OnlyNumbers(masked))]
    ensures final.name == name && final.email == email && final.cpf == OnlyNumbers(masked) && final.birthday == birthday
    ensures final.alertErrorCpf && !final.alertToggleOpen
  {
    var form := new CustomerForm(isValidCpf);
    form.SetName(name);
    form.SetEmail(email);
    form.HandleCpf(masked);
    form.SetBirthday(birthday);
    form.HandleSubmit([existing]);
    final := form.State();
  }

  /** Submitting the form part-way through the CPF: the pre-check still goes out,
      but nothing else happens, not even an alert, and the inputs are kept. */
  method CreateWithIncompleteCpf(isValidCpf: string -> bool, name: string, email: string, partial: string,
                                 birthday: string)
    returns (final: FormState)
    requires |partial| < 14
    ensures final.requests == [Get("?cpf=" + OnlyNumbers(partial))]
    ensures final.errorCpf && final.cpf == OnlyNumbers(partial)
    ensures final.name == name && final.email == email && final.birthday == birthday
    ensures !final.alertToggleOpen && !final.alertErrorCpf
  {
    var form := new CustomerForm(isValidCpf);
    form.SetName(name);
    form.SetEmail(email);
    form.HandleCpf(partial);
    form.SetBirthday(birthday);
    form.HandleSubmit([]);
    final := form.State();
  }

  /** The query of a search by name "Ana", id "7" and a non-empty CPF. */
  lemma AllFiltersQuery(digits: string)
    requires digits != ""
    ensures SearchQuery("Ana", "7", digits) == "?name_like=Ana&id=7&cpf=" + digits
  {
    assert SearchQuery("Ana", "7", digits) == "?name_like=" + "Ana" + ("&id=" + "7") + ("&cpf=" + digits);
    assert "?name_like=" + "Ana" + ("&id=" + "7") == "?name_like=Ana&id=7";
  }

  /** Searching by every filter: one GET carrying all three, and the backend's
      answer shown as given. */
  method SearchByAllFilters(isValidCpf: string -> bool, masked: string, response: seq<Customer>)
    returns (requests: seq<Request>, customers: seq<Customer>, shown: bool)
    requires IsMaskedCpf(masked) && isValidCpf(masked)
    ensures requests == [Get("?name_like=Ana&id=7&cpf=" + OnlyNumbers(masked))]
    ensures customers == response && shown
  {
    MaskedCpfDigits(masked);
    AllFiltersQuery(OnlyNumbers(masked));
    var search := new CustomerSearch(isValidCpf);
    search.SetId("7");
    search.SetName("Ana");
    search.HandleCpf(masked);
    search.HandleSubmit(response);
    requests, customers, shown := search.requests, search.customers, search.searchResult;
  }

  /** Searching with an incomplete CPF: no request, the invalid-CPF alert with its
      message, and the result list as it was (the initial blank row), still hidden. */
  method SearchWithIncompleteCpf(isValidCpf: string -> bool, partial: string, response: seq<Customer>)
    returns (final: SearchState)
    requires |partial| < 14
    ensures final.requests == []
    ensures final.alertErrorCpf && final.errorMessage == "CPF inválido!!"
    ensures final.customers == [Customer("", "", "", "", "")] && !final.searchResult
  {
    var search := new CustomerSearch(isValidCpf);
    search.HandleCpf(partial);
    search.HandleSubmit(response);
    final := search.State();
  }

  /** Two-phase deletion: choosing a row and cancelling sends nothing; choosing
      another row and confirming sends one DELETE, for that row's id, hides the
      results and raises the success alert. */
  method SearchThenDelete(isValidCpf: string -> bool, name: string, a: Customer, b: Customer)
    returns (beforeConfirm: seq<Request>, requests: seq<Request>, shown: bool, success: bool, warn: bool)
    ensures beforeConfirm == [Get(SearchQuery(name, "", ""))]
    ensures requests == [Get(SearchQuery(name, "", "")), Delete(b.id)]
    ensures !shown && success && !warn
  {
    var search := new CustomerSearch(isValidCpf);
    search.SetName(name);
    search.HandleSubmit([a, b]);
    search.HandleCustomerDeleteOnClick(a);
    search.AlertHandleCancelDelete();
    search.HandleCustomerDeleteOnClick(b);
    beforeConfirm := search.requests;
    search.ConfirmDelete();
    requests, shown, success, warn := search.requests, search.searchResult, search.alertSuccess, search.alertWarn;
  }

  /** Choosing a second row while the confirmation is open closes it (the alert is a
      toggle) and leaves the second row as the one a later confirmation would delete. */
  method ReselectClosesConfirmation(isValidCpf: string -> bool, a: Customer, b: Customer)
    returns (final: SearchState)
    ensures !final.alertWarn && final.alertCustomerId == b.id && final.alertCustomerName == b.name
    ensures final.requests == []
  {
    var search := new CustomerSearch(isValidCpf);
    search.HandleCustomerDeleteOnClick(a);
    search.HandleCustomerDeleteOnClick(b);
    final := search.State();
  }

  /** As written, a complete CPF the validator rejects keeps an earlier "no error":
      editing an accepted entry into a rejected one of the same length lets the
      form create a customer with the rejected CPF. */
  method StaleCpfErrorAdmitsRejectedCpf(isValidCpf: string -> bool, name: string, email: string,
                                        accepted: string, rejected: string, birthday: string)
    returns (final: FormState)
    requires |accepted| == 14 && |rejected| == 14
    requires isValidCpf(accepted) && !isValidCpf(rejected)
    ensures final.requests == [Get(PrecheckQuery(OnlyNumbers(rejected))),
                               Post(CustomerData(name, email, OnlyNumbers(rejected), birthday))]
  {
    var form := new CustomerForm(isValidCpf);
    form.SetName(name);
    form.SetEmail(email);
    form.SetBirthday(birthday);
    form.HandleCpf(accepted);
    form.HandleCpf(rejected);
    form.HandleSubmit([]);
    final := form.State();
  }

  /** With the corrected CPF handler the same edit raises the error, and the submit
      stops after the pre-check. */
  method CheckedCpfBlocksRejectedCpf(isValidCpf: string -> bool, name: string, email: string,
                                     accepted: string, rejected: string, birthday: string)
    returns (final: FormState)
    requires |accepted| == 14 && |rejected| == 14
    requires isValidCpf(accepted) && !isValidCpf(rejected)
    ensures final.requests == [Get(PrecheckQuery(OnlyNumbers(rejected)))]
    ensures final.errorCpf && final.cpf == OnlyNumbers(rejected)
    ensures final.name == name && final.email == email && final.birthday == birthday
  {
    var form := new CustomerForm(isValidCpf);
    form.SetName(name);
    form.SetEmail(email);
    form.SetBirthday(birthday);
    form.HandleCpfChecked(accepted);
    form.HandleCpfChecked(rejected);
    form.HandleSubmit([]);
    final := form.State();
  }

  /** As written, the search's CPF handler has the same stale "no error": after an
      accepted entry is edited into a rejected one of the same length, the search
      still runs, with the rejected CPF as its filter. */
  method SearchStaleCpfErrorSearchesRejectedCpf(isValidCpf: string -> bool, accepted: string, rejected: string,
                                                response: seq<Customer>)
    returns (requests: seq<Request>, customers: seq<Customer>, errorShown: bool)
    requires |accepted| == 14 && |rejected| == 14
    requires isValidCpf(accepted) && !isValidCpf(rejected)
    ensures requests == [Get(SearchQuery("", "", OnlyNumbers(rejected)))]
    ensures customers == response && !errorShown
  {
    var search := new CustomerSearch(isValidCpf);
    search.HandleCpf(accepted);
    search.HandleCpf(rejected);
    search.HandleSubmit(response);
    requests, customers, errorShown := search.requests, search.customers, search.alertErrorCpf;
  }

  /** With the corrected search CPF handler the same edit raises the error: the
      submit sends nothing and shows the invalid-CPF message. */
  method SearchCheckedCpfBlocksRejectedCpf(isValidCpf: string -> bool, accepted: string, rejected: string,
                                           response: seq<Customer>)
    returns (requests: seq<Request>, errorShown: bool, message: string)
    requires |accepted| == 14 && |rejected| == 14
    requires isValidCpf(accepted) && !isValidCpf(rejected)
    ensures requests == [] && errorShown && message == "CPF inválido!!"
  {
    var search := new CustomerSearch(isValidCpf);
    search.HandleCpfChecked(accepted);
    search.HandleCpfChecked(rejected);
    search.HandleSubmit(response);
    requests, errorShown, message := search.requests, search.alertErrorCpf, search.errorMessage;
  }

  /** Each alert of the creation form is a toggle: two flips in a row change nothing. */
  method FormAlertsFlipBack(form: CustomerForm)
    requires form.Valid()
    modifies form
    ensures form.Valid() && form.State() == old(form.State())
  {
    form.AlertHandleToggle();
    form.AlertHandleToggle();
    form.AlertHandleErrorCpf();
    form.AlertHandleErrorCpf();
  }

  /** The delete confirmation of the search is a toggle too. */
  method SearchWarnFlipsBack(search: CustomerSearch)
    requires search.Valid()
    modifies search
    ensures search.Valid() && search.State() == old(search.State())
  {
    search.AlertHandleToggle();
    search.AlertHandleToggle();
  }
}
