/** The search-and-delete component: its state variables become the fields of a
    class and each event handler a method. Every backend call the handlers make is
    appended to `requests`; the answer to a search is a parameter of the handler. */
module Search {
  import opened Api
  import opened Text
  import opened Query

  /** The message the search shows when it is submitted with a rejected CPF. */
  const InvalidCpfMessage: string := "CPF inválido!!"

  /** One value per state variable of the component, plus the requests issued so far. */
  datatype SearchState = SearchState(
    id: string,
    name: string,
    cpf: string,
    errorCpf: bool,
    searchResult: bool,
    customers: seq<Customer>,
    alertCustomerName: string,
    alertCustomerId: string,
    alertWarn: bool,
    alertSuccess: bool,
    alertErrorCpf: bool,
    errorMessage: string,
    requests: seq<Request>)

  /** The row the result list starts with: one customer with every field empty. */
  const BlankCustomer := Customer("", "", "", "", "")

  const Initial := SearchState("", "", "", false, false, [BlankCustomer], "", "", false, false, false, "", [])

  class CustomerSearch {
    /** `isValidCPF`, whose definition is not part of this model. */
    const isValidCpf: string -> bool

    var id: string
    var name: string
    var cpf: string
    var errorCpf: bool
    var searchResult: bool
    var customers: seq<Customer>
    var alertCustomerName: string
    var alertCustomerId: string
    var alertWarn: bool
    var alertSuccess: bool
    var alertErrorCpf: bool
    var errorMessage: string
    var requests: seq<Request>

    function State(): SearchState
      reads this
    {
      SearchState(id, name, cpf, errorCpf, searchResult, customers, alertCustomerName,
        alertCustomerId, alertWarn, alertSuccess, alertErrorCpf, errorMessage, requests)
    }

    /** The stored CPF is always digits only: it is set by `HandleCpf` or cleared. */
    ghost predicate Valid()
      reads this
    {
      AllDigits(cpf)
    }

    constructor (isValidCpf: string -> bool)
      ensures Valid() && State() == Initial && this.isValidCpf == isValidCpf
    {
      this.isValidCpf := isValidCpf;
      id, name, cpf := "", "", "";
      errorCpf, searchResult := false, false;
      customers := [BlankCustomer];
      alertCustomerName, alertCustomerId := "", "";
      alertWarn, alertSuccess, alertErrorCpf := false, false, false;
      errorMessage := "";
      requests := [];
    }

    /** The id input's change handler. */
    method SetId(value: string)
      requires Valid()
      modifies this`id
      ensures Valid() && id == value
    {
      id := value;
    }

    /** The name input's change handler. */
    method SetName(value: string)
      requires Valid()
      modifies this`name
      ensures Valid() && name == value
    {
      name := value;
    }

    /** Selecting a row for deletion: flips the confirmation alert and remembers the
        row's name and id. Nothing is sent to the backend. */
    method HandleCustomerDeleteOnClick(customer: Customer)
      requires Valid()
      modifies this`alertWarn, this`alertCustomerName, this`alertCustomerId
      ensures Valid()
      ensures alertWarn == !old(alertWarn)
      ensures alertCustomerName == customer.name && alertCustomerId == customer.id
    {
      AlertHandleToggle();
      alertCustomerName := customer.name;
      alertCustomerId := customer.id;
    }

    method AlertHandleToggle()
      requires Valid()
      modifies this`alertWarn
      ensures Valid() && alertWarn == !old(alertWarn)
    {
      alertWarn := !alertWarn;
    }

    /** Cancelling the deletion: closes the confirmation alert and forgets the row,
        without a request. */
    method AlertHandleCancelDelete()
      requires Valid()
      modifies this`alertWarn, this`alertCustomerName, this`alertCustomerId
      ensures Valid()
      ensures !alertWarn && alertCustomerName == "" && alertCustomerId == ""
    {
      alertWarn := false;
      alertCustomerName := "";
      alertCustomerId := "";
    }

    /** The clear button: every input and the stored name and id empty, every flag
        down; the result list, the error message and the requests are kept. */
    method CleanInputsOnClick()
      requires Valid()
      modifies this`id, this`name, this`cpf, this`alertCustomerName, this`alertCustomerId,
               this`alertWarn, this`errorCpf, this`searchResult, this`alertSuccess, this`alertErrorCpf
      ensures Valid()
      ensures id == "" && name == "" && cpf == "" && alertCustomerName == "" && alertCustomerId == ""
      ensures !alertWarn && !errorCpf && !searchResult && !alertSuccess && !alertErrorCpf
    {
      id := "";
      name := "";
      cpf := "";
      alertCustomerName := "";
      alertCustomerId := "";
      alertWarn := false;
      errorCpf := false;
      searchResult := false;
      alertSuccess := false;
      alertErrorCpf := false;
    }

    /** The search submit. With no CPF error it issues one GET for the filled-in
        filters and shows the backend's answer, in the order given; with a CPF error
        it issues nothing and raises the invalid-CPF alert, keeping the old results.
        The stored CPF is digits only, so the GET splits back into exactly the
        intended filters whenever the name and the id are free of `&`. */
    method HandleSubmit(response: seq<Customer>)
      requires Valid()
      modifies this`customers, this`alertErrorCpf, this`searchResult, this`requests, this`errorMessage
      ensures Valid()
      ensures !errorCpf ==>
        requests == old(requests) + [Get(SearchQuery(name, id, cpf))] &&
        customers == response && searchResult && !alertErrorCpf && errorMessage == old(errorMessage)
      ensures errorCpf ==>
        requests == old(requests) && errorMessage == InvalidCpfMessage && alertErrorCpf &&
        customers == old(customers) && searchResult == old(searchResult)
      ensures !errorCpf && '&' !in name && '&' !in id ==>
        Decode(requests[|requests| - 1].query) == SearchParams(name, id, cpf)
    {
      if !errorCpf && '&' !in name && '&' !in id {
        DigitsExclude(cpf, '&');
        DecodeSearchQuery(name, id, cpf);
      }
      if !errorCpf {
        // the list is emptied while the request is in flight
        customers := [];
        alertErrorCpf := false;
        searchResult := true;
        requests := requests + [Get(SearchQuery(name, id, cpf))];
        customers := response;
      } else {
        errorMessage := InvalidCpfMessage;
        alertErrorCpf := true;
      }
    }

    /** One DELETE for `customerId`; the result list is hidden afterwards. */
    method DeleteCustomer(customerId: string)
      requires Valid()
      modifies this`requests, this`searchResult
      ensures Valid()
      ensures requests == old(requests) + [Delete(customerId)] && !searchResult
    {
      requests := requests + [Delete(customerId)];
      searchResult := false;
    }

    /** Confirming the deletion: deletes the stored id, flips the confirmation alert
        and raises the success alert. The stored name and id are kept. */
    method ConfirmDelete()
      requires Valid()
      modifies this`requests, this`searchResult, this`alertWarn, this`alertSuccess
      ensures Valid()
      ensures requests == old(requests) + [Delete(alertCustomerId)]
      ensures !searchResult && alertWarn == !old(alertWarn) && alertSuccess
    {
      DeleteCustomer(alertCustomerId);
      AlertHandleToggle();
      alertSuccess := true;
    }

    /** The timer callback that hides the success alert. */
    method DismissSuccess()
      requires Valid()
      modifies this`alertSuccess
      ensures Valid() && !alertSuccess
    {
      alertSuccess := false;
    }

    /** The CPF input's change handler: stores the digits of the masked entry. A
        complete entry (14 characters) hides the invalid-CPF alert and clears the
        error when the validator accepts it, leaving the error as it was otherwise;
        any other length sets the error and leaves the alert alone. */
    method HandleCpf(maskedCpf: string)
      requires Valid()
      modifies this`cpf, this`errorCpf, this`alertErrorCpf
      ensures Valid()
      ensures cpf == OnlyNumbers(maskedCpf) && |cpf| <= |maskedCpf|
      ensures |maskedCpf| != 14 ==> errorCpf && alertErrorCpf == old(alertErrorCpf)
      ensures |maskedCpf| == 14 ==> !alertErrorCpf && errorCpf == (old(errorCpf) && !isValidCpf(maskedCpf))
    {
      OnlyNumbersLength(maskedCpf);
      cpf := OnlyNumbers(maskedCpf);
      if |maskedCpf| == 14 {
        alertErrorCpf := false;
        if isValidCpf(maskedCpf) {
          errorCpf := false;
        }
      } else {
        errorCpf := true;
      }
    }

    /** The CPF handler as evidently intended: the error is raised exactly when the
        entry is not a complete CPF the validator accepts. The alert is handled as in
        `HandleCpf`. */
    method HandleCpfChecked(maskedCpf: string)
      requires Valid()
      modifies this`cpf, this`errorCpf, this`alertErrorCpf
      ensures Valid()
      ensures cpf == OnlyNumbers(maskedCpf)
      ensures errorCpf <==> !(|maskedCpf| == 14 && isValidCpf(maskedCpf))
      ensures |maskedCpf| != 14 ==> alertErrorCpf == old(alertErrorCpf)
      ensures |maskedCpf| == 14 ==> !alertErrorCpf
    {
      cpf := OnlyNumbers(maskedCpf);
      if |maskedCpf| == 14 {
        alertErrorCpf := false;
      }
      errorCpf := !(|maskedCpf| == 14 && isValidCpf(maskedCpf));
    }
  }
}
