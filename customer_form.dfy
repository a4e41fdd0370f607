/** The creation form: its state variables become the fields of a class and each
    event handler a method. Every backend call is appended to `requests`; the answer
    to the duplicate pre-check is a parameter of the submit handler. */
module Form {
  import opened Api
  import opened Text
  import opened Query

  /** One value per state variable of the component, plus the requests issued so far. */
  datatype FormState = FormState(
    name: string,
    email: string,
    cpf: string,
    birthday: string,
    errorCpf: bool,
    alertToggleOpen: bool,
    alertErrorCpf: bool,
    requests: seq<Request>)

  const Initial := FormState("", "", "", "", false, false, false, [])

  /** The request at position `i` is no deletion, and if it is a creation request it
      carries a digits-only CPF and comes right after the duplicate pre-check for that
      same CPF. */
  predicate PrecheckedAt(log: seq<Request>, i: nat)
    requires i < |log|
  {
    !log[i].Delete? &&
    (log[i].Post? ==> 0 < i && log[i - 1] == Get(PrecheckQuery(log[i].body.cpf)) && AllDigits(log[i].body.cpf))
  }

  /** The form's request log: it never deletes, and every creation request follows
      the pre-check for its own CPF. */
  predicate PostsArePrechecked(log: seq<Request>) {
    forall i :: 0 <= i < |log| ==> PrecheckedAt(log, i)
  }

  /** A query never breaks the invariant. */
  lemma AppendGetKeepsPrechecked(log: seq<Request>, query: string)
    requires PostsArePrechecked(log)
    ensures PostsArePrechecked(log + [Get(query)])
  {
    var log' := log + [Get(query)];
    forall i | 0 <= i < |log'| ensures PrecheckedAt(log', i) {
      if i < |log| {
        assert PrecheckedAt(log, i);
        assert log'[i] == log[i];
        if log[i].Post? {
          assert log'[i - 1] == log[i - 1];
        }
      }
    }
  }

  /** A creation request right after the pre-check for its CPF keeps the invariant. */
  lemma AppendPostKeepsPrechecked(log: seq<Request>, body: CustomerData)
    requires PostsArePrechecked(log) && AllDigits(body.cpf)
    requires |log| > 0 && log[|log| - 1] == Get(PrecheckQuery(body.cpf))
    ensures PostsArePrechecked(log + [Post(body)])
  {
    var log' := log + [Post(body)];
    forall i | 0 <= i < |log'| ensures PrecheckedAt(log', i) {
      if i < |log| {
        assert PrecheckedAt(log, i);
        assert log'[i] == log[i];
        if log[i].Post? {
          assert log'[i - 1] == log[i - 1];
        }
      } else {
        assert log'[i - 1] == log[|log| - 1];
      }
    }
  }

  class CustomerForm {
    /** `isValidCPF`, whose definition is not part of this model. */
    const isValidCpf: string -> bool

    var name: string
    var email: string
    var cpf: string
    var birthday: string
    var errorCpf: bool
    var alertToggleOpen: bool
    var alertErrorCpf: bool
    var requests: seq<Request>

    function State(): FormState
      reads this
    {
      FormState(name, email, cpf, birthday, errorCpf, alertToggleOpen, alertErrorCpf, requests)
    }

    ghost predicate Valid()
      reads this
    {
      AllDigits(cpf) && PostsArePrechecked(requests)
    }

    constructor (isValidCpf: string -> bool)
      ensures Valid() && State() == Initial && this.isValidCpf == isValidCpf
    {
      this.isValidCpf := isValidCpf;
      name, email, cpf, birthday := "", "", "", "";
      errorCpf, alertToggleOpen, alertErrorCpf := false, false, false;
      requests := [];
    }

    /** The four inputs hold what they held at the start of the call. */
    twostate predicate InputsKept()
      reads this
    {
      name == old(name) && email == old(email) && cpf == old(cpf) && birthday == old(birthday)
    }

    /** The name input's change handler. */
    method SetName(value: string)
      requires Valid()
      modifies this`name
      ensures Valid() && name == value
    {
      name := value;
    }

    /** The e-mail input's change handler. */
    method SetEmail(value: string)
      requires Valid()
      modifies this`email
      ensures Valid() && email == value
    {
      email := value;
    }

    /** The birthday input's change handler. */
    method SetBirthday(value: string)
      requires Valid()
      modifies this`birthday
      ensures Valid() && birthday == value
    {
      birthday := value;
    }

    /** The submit handler. The pre-check GET for the current CPF is always sent, even
        with a CPF error. Then, without a CPF error: an empty answer flips the success
        alert, sends one POST with the current fields and clears them; a non-empty
        answer flips the duplicate alert and keeps the fields. With a CPF error
        nothing else happens. */
    method HandleSubmit(precheck: seq<Customer>)
      requires Valid()
      modifies this`requests, this`alertToggleOpen, this`alertErrorCpf,
               this`name, this`email, this`cpf, this`birthday
      ensures Valid()
      ensures errorCpf ==>
        requests == old(requests) + [Get(PrecheckQuery(old(cpf)))] &&
        alertToggleOpen == old(alertToggleOpen) && alertErrorCpf == old(alertErrorCpf) && InputsKept()
      ensures !errorCpf && precheck == [] ==>
        requests == old(requests) + [Get(PrecheckQuery(old(cpf))),
                                     Post(CustomerData(old(name), old(email), old(cpf), old(birthday)))] &&
        alertToggleOpen == !old(alertToggleOpen) && alertErrorCpf == old(alertErrorCpf) &&
        name == "" && email == "" && cpf == "" && birthday == ""
      ensures !errorCpf && precheck != [] ==>
        requests == old(requests) + [Get(PrecheckQuery(old(cpf)))] &&
        alertToggleOpen == old(alertToggleOpen) && alertErrorCpf == !old(alertErrorCpf) && InputsKept()
    {
      AppendGetKeepsPrechecked(requests, PrecheckQuery(cpf));
      requests := requests + [Get(PrecheckQuery(cpf))];
      if !errorCpf {
        if |precheck| == 0 {
          AlertHandleToggle();
          AppendPostKeepsPrechecked(requests, CustomerData(name, email, cpf, birthday));
          requests := requests + [Post(CustomerData(name, email, cpf, birthday))];
          CleanInputs();
        } else {
          AlertHandleErrorCpf();
        }
      }
    }

    /** The CPF input's change handler: stores the digits of the masked entry. A
        complete entry (14 characters) clears the error when the validator accepts
        it and leaves it as it was otherwise; any other length sets it. No alert is
        touched. */
    method HandleCpf(maskedCpf: string)
      requires Valid()
      modifies this`cpf, this`errorCpf
      ensures Valid()
      ensures cpf == OnlyNumbers(maskedCpf) && |cpf| <= |maskedCpf|
      ensures |maskedCpf| != 14 ==> errorCpf
      ensures |maskedCpf| == 14 ==> errorCpf == (old(errorCpf) && !isValidCpf(maskedCpf))
    {
      OnlyNumbersLength(maskedCpf);
      cpf := OnlyNumbers(maskedCpf);
      if |maskedCpf| == 14 {
        if isValidCpf(maskedCpf) {
          errorCpf := false;
        }
      } else {
        errorCpf := true;
      }
    }

    /** The CPF handler as evidently intended: the error is raised exactly when the
        entry is not a complete CPF the validator accepts, so a stale "no error" can
        never outlive a rejected entry. */
    method HandleCpfChecked(maskedCpf: string)
      requires Valid()
      modifies this`cpf, this`errorCpf
      ensures Valid()
      ensures cpf == OnlyNumbers(maskedCpf)
      ensures errorCpf <==> !(|maskedCpf| == 14 && isValidCpf(maskedCpf))
    {
      cpf := OnlyNumbers(maskedCpf);
      errorCpf := !(|maskedCpf| == 14 && isValidCpf(maskedCpf));
    }

    /** Flips the duplicate-customer alert. */
    method AlertHandleErrorCpf()
      requires Valid()
      modifies this`alertErrorCpf
      ensures Valid() && alertErrorCpf == !old(alertErrorCpf)
    {
      alertErrorCpf := !alertErrorCpf;
    }

    /** Flips the success alert. */
    method AlertHandleToggle()
      requires Valid()
      modifies this`alertToggleOpen
      ensures Valid() && alertToggleOpen == !old(alertToggleOpen)
    {
      alertToggleOpen := !alertToggleOpen;
    }

    /** The timer callback that hides the duplicate-customer alert. */
    method DismissErrorCpf()
      requires Valid()
      modifies this`alertErrorCpf
      ensures Valid() && !alertErrorCpf
    {
      alertErrorCpf := false;
    }

    /** The timer callback that hides the success alert. */
    method DismissToggle()
      requires Valid()
      modifies this`alertToggleOpen
      ensures Valid() && !alertToggleOpen
    {
      alertToggleOpen := false;
    }

    /** The clear button: the four inputs empty; the error flag, the alerts and the
        requests are kept. */
    method CleanInputs()
      requires Valid()
      modifies this`name, this`email, this`cpf, this`birthday
      ensures Valid()
      ensures name == "" && email == "" && cpf == "" && birthday == ""
    {
      name := "";
      email := "";
      cpf := "";
      birthday := "";
    }
  }
}
