/**
 * The checkout page: the field-by-field validation of the shipping and payment form,
 * the email shape test, and the submit workflow (editing, processing, completed)
 * that empties the cart when the simulated payment completes.
 */
module Checkout {
  import opened Catalog
  import opened Text
  import Cart

  /** The names of the form's inputs. */
  datatype Field = FirstName | LastName | Email | Address | City | Zip | PaymentMethod

  /** The form's values, by input name. */
  datatype Form = Form(
    firstName: string,
    lastName: string,
    email: string,
    address: string,
    city: string,
    zip: string,
    paymentMethod: string)
  {
    function Get(f: Field): string
    {
      match f
      case FirstName => firstName
      case LastName => lastName
      case Email => email
      case Address => address
      case City => city
      case Zip => zip
      case PaymentMethod => paymentMethod
    }

    /** `{ ...prev, [name]: value }`: the named input takes the value, every other input keeps its own. */
    function With(f: Field, value: string): (r: Form)
      ensures r.Get(f) == value
      ensures forall g :: g != f ==> r.Get(g) == Get(g)
    {
      match f
      case FirstName => this.(firstName := value)
      case LastName => this.(lastName := value)
      case Email => this.(email := value)
      case Address => this.(address := value)
      case City => this.(city := value)
      case Zip => this.(zip := value)
      case PaymentMethod => this.(paymentMethod := value)
    }
  }

  /** `initialForm`: every text input empty, paying by card. */
  const InitialForm := Form("", "", "", "", "", "", "card")

  /** The six text inputs the validator looks at. */
  const TextFields: set<Field> := {FirstName, LastName, Email, Address, City, Zip}

  /** The message for an empty required input. */
  function RequiredMessage(f: Field): string
  {
    match f
    case FirstName => "First name is required"
    case LastName => "Last name is required"
    case Email => "Email is required"
    case Address => "Address is required"
    case City => "City is required"
    case Zip => "ZIP code is required"
    case PaymentMethod => ""
  }

  const InvalidEmailMessage := "Invalid email address"

  // ---------------------------------------------------------------------------
  // The email pattern /^[^\s@]+@[^\s@]+\.[^\s@]+$/

  /** `[^\s@]`. */
  predicate Plain(c: char)
  {
    !IsSpace(c) && c != '@'
  }

  predicate AllPlain(t: string)
  {
    forall k :: 0 <= k < |t| ==> Plain(t[k])
  }

  /** The language of the pattern: three non-empty runs of `[^\s@]`, joined by `@` and by `.`. */
  ghost predicate EmailPattern(s: string)
  {
    exists i, j ::
      && 0 < i && i + 1 < j && j + 1 < |s|
      && s[i] == '@' && s[j] == '.'
      && AllPlain(s[..i]) && AllPlain(s[i + 1..j]) && AllPlain(s[j + 1..])
  }

  /** The position of the first `c` in `s`, or `|s|` when there is none. */
  function IndexOf(s: string, c: char): (k: nat)
    ensures k <= |s|
    ensures k < |s| ==> s[k] == c
    ensures forall m :: 0 <= m < k ==> s[m] != c
  {
    if s == [] then 0
    else if s[0] == c then 0
    else 1 + IndexOf(s[1..], c)
  }

  /** Some `.` of `d` has a character before it and one after it. */
  predicate HasInnerDot(d: string)
  {
    exists j :: 0 < j < |d| - 1 && d[j] == '.'
  }

  /** The test itself: split at the first `@`, then check both sides. */
  predicate ValidEmail(s: string)
  {
    var at := IndexOf(s, '@');
    0 < at < |s| && AllPlain(s[..at]) && AllPlain(s[at + 1..]) && HasInnerDot(s[at + 1..])
  }

  lemma AllPlainSlice(t: string, lo: int, hi: int)
    requires AllPlain(t) && 0 <= lo <= hi <= |t|
    ensures AllPlain(t[lo..hi])
  {
    forall k | 0 <= k < hi - lo ensures Plain(t[lo..hi][k]) {
      assert t[lo..hi][k] == t[lo + k];
    }
  }

  lemma ValidEmailMatches(s: string)
    requires ValidEmail(s)
    ensures EmailPattern(s)
  {
    var i := IndexOf(s, '@');
    var d := s[i + 1..];
    var jd :| 0 < jd < |d| - 1 && d[jd] == '.';
    var j := i + 1 + jd;
    assert s[j] == '.';
    AllPlainSlice(d, 0, jd);
    AllPlainSlice(d, jd + 1, |d|);
    assert s[i + 1..j] == d[..jd];
    assert s[j + 1..] == d[jd + 1..];
  }

  lemma MatchesValidEmail(s: string, i: int, j: int)
    requires 0 < i && i + 1 < j && j + 1 < |s|
    requires s[i] == '@' && s[j] == '.'
    requires AllPlain(s[..i]) && AllPlain(s[i + 1..j]) && AllPlain(s[j + 1..])
    ensures ValidEmail(s)
  {
    var at := IndexOf(s, '@');
    assert at == i;
    var d := s[i + 1..];
    var left, right := s[i + 1..j], s[j + 1..];
    assert AllPlain(d) by {
      forall k | 0 <= k < |d| ensures Plain(d[k]) {
        if k < |left| {
          assert d[k] == left[k];
        } else if k > |left| {
          assert d[k] == right[k - |left| - 1];
        } else {
          assert d[k] == s[j];
        }
      }
    }
    assert d[j - (i + 1)] == '.';
  }

  /** The test accepts exactly the strings the pattern matches. */
  lemma EmailTestMatchesPattern(s: string)
    ensures ValidEmail(s) <==> EmailPattern(s)
  {
    if ValidEmail(s) {
      ValidEmailMatches(s);
    }
    if EmailPattern(s) {
      var i, j :|
        && 0 < i && i + 1 < j && j + 1 < |s|
        && s[i] == '@' && s[j] == '.'
        && AllPlain(s[..i]) && AllPlain(s[i + 1..j]) && AllPlain(s[j + 1..]);
      MatchesValidEmail(s, i, j);
    }
  }

  // ---------------------------------------------------------------------------
  // Validation

  /**
   * The errors object: the message shown under each text input, `None` where the
   * entry is absent or `undefined`. The payment method never has one.
   */
  datatype ErrorSet = ErrorSet(
    firstName: Option<string>,
    lastName: Option<string>,
    email: Option<string>,
    address: Option<string>,
    city: Option<string>,
    zip: Option<string>)
  {
    /** `errors[name]`. */
    function Get(f: Field): Option<string>
    {
      match f
      case FirstName => firstName
      case LastName => lastName
      case Email => email
      case Address => address
      case City => city
      case Zip => zip
      case PaymentMethod => None
    }

    /** `{ ...prev, [name]: undefined }`: the named entry is cleared, every other entry kept. */
    function Cleared(f: Field): (r: ErrorSet)
      ensures r.Get(f) == None
      ensures forall g :: g != f ==> r.Get(g) == Get(g)
    {
      match f
      case FirstName => this.(firstName := None)
      case LastName => this.(lastName := None)
      case Email => this.(email := None)
      case Address => this.(address := None)
      case City => this.(city := None)
      case Zip => this.(zip := None)
      case PaymentMethod => this
    }

    /** The inputs with a message: `Object.keys` of an object built by `validateForm`. */
    function Keys(): (r: set<Field>)
      ensures forall f :: f in r <==> Get(f).Some?
    {
      set f | f in TextFields && Get(f).Some?
    }
  }

  /** `{}`. */
  const NoErrors := ErrorSet(None, None, None, None, None, None)

  /** The message one input earns, if any. */
  function FieldError(form: Form, f: Field): Option<string>
  {
    if f == PaymentMethod then None
    else if Trim(form.Get(f)) == [] then Some(RequiredMessage(f))
    else if f == Email && !ValidEmail(form.email) then Some(InvalidEmailMessage)
    else None
  }

  /** No input earns a message. */
  predicate Passes(form: Form)
  {
    forall f :: FieldError(form, f) == None
  }

  /** One required-input check of `validateForm`: a blank value earns the input's "required" message. */
  method RequireFilled(form: Form, f: Field) returns (entry: Option<string>)
    requires f in TextFields && f != Email
    ensures entry == FieldError(form, f)
  {
    entry := None;
    if Trim(form.Get(f)) == [] {
      entry := Some(RequiredMessage(f));
    }
  }

  /**
   * `validateForm`: each text input is checked in turn and its message, if any,
   * recorded; the email is "required" when blank and otherwise "invalid" when it
   * fails the email test.
   */
  method ValidateForm(form: Form) returns (errors: ErrorSet)
    ensures forall f :: errors.Get(f) == FieldError(form, f)
  {
    var firstName := RequireFilled(form, FirstName);
    var lastName := RequireFilled(form, LastName);
    var email := None;
    if Trim(form.email) == [] {
      email := Some(RequiredMessage(Email));
    } else if !ValidEmail(form.email) {
      email := Some(InvalidEmailMessage);
    }
    var address := RequireFilled(form, Address);
    var city := RequireFilled(form, City);
    var zip := RequireFilled(form, Zip);
    errors := ErrorSet(firstName, lastName, email, address, city, zip);
    ByField(errors, form);
  }

  lemma ByField(errors: ErrorSet, form: Form)
    requires errors.firstName == FieldError(form, FirstName)
    requires errors.lastName == FieldError(form, LastName)
    requires errors.email == FieldError(form, Email)
    requires errors.address == FieldError(form, Address)
    requires errors.city == FieldError(form, City)
    requires errors.zip == FieldError(form, Zip)
    ensures forall f :: errors.Get(f) == FieldError(form, f)
  {
    forall f ensures errors.Get(f) == FieldError(form, f) {
      match f
      case FirstName =>
      case LastName =>
      case Email =>
      case Address =>
      case City =>
      case Zip =>
      case PaymentMethod =>
    }
  }

  /**
   * Only the six text inputs can have errors and the payment method never does.
   * A required input has an error exactly when it is blank; the email is "required"
   * when blank and "invalid" when it is not blank but fails the pattern (tested on
   * the untrimmed text).
   */
  lemma FieldErrorSpec(form: Form)
    ensures FieldError(form, PaymentMethod) == None
    ensures forall f :: f in TextFields && f != Email ==>
      FieldError(form, f) == if Blank(form.Get(f)) then Some(RequiredMessage(f)) else None
    ensures Blank(form.email) ==> FieldError(form, Email) == Some("Email is required")
    ensures !Blank(form.email) && !EmailPattern(form.email) ==> FieldError(form, Email) == Some("Invalid email address")
    ensures !Blank(form.email) && EmailPattern(form.email) ==> FieldError(form, Email) == None
  {
    forall f | f in TextFields && f != Email
      ensures FieldError(form, f) == if Blank(form.Get(f)) then Some(RequiredMessage(f)) else None
    {
      TrimEmpty(form.Get(f));
    }
    TrimEmpty(form.email);
    EmailTestMatchesPattern(form.email);
  }

  /** The untouched initial form earns the "required" message on every text input. */
  lemma InitialFormErrors()
    ensures forall f :: f in TextFields ==> FieldError(InitialForm, f) == Some(RequiredMessage(f))
    ensures |set f | f in TextFields && FieldError(InitialForm, f).Some?| == 6
  {
    FieldErrorSpec(InitialForm);
    assert (set f | f in TextFields && FieldError(InitialForm, f).Some?) == TextFields;
    assert |TextFields| == 6;
  }

  /** A form whose inputs are all filled in but whose email is "nope" has only the email error. */
  lemma OnlyEmailInvalid(form: Form)
    requires forall f :: f in TextFields ==> !Blank(form.Get(f))
    requires form.email == "nope"
    ensures FieldError(form, Email) == Some("Invalid email address")
    ensures forall f :: f != Email ==> FieldError(form, f) == None
  {
    FieldErrorSpec(form);
    assert !EmailPattern("nope") by {
      EmailTestMatchesPattern("nope");
      assert IndexOf("nope", '@') == 4;
    }
  }

  /** A form with every input filled in and a well-formed email has no errors. */
  lemma ValidFormNoErrors(form: Form)
    requires forall f :: f in TextFields ==> !Blank(form.Get(f))
    requires EmailPattern(form.email)
    ensures Passes(form)
  {
    FieldErrorSpec(form);
  }

  // ---------------------------------------------------------------------------
  // The submit workflow

  datatype Phase = Editing | Processing | Completed

  /** The checkout page's state over the shared cart store. */
  class CheckoutPage {
    var form: Form
    var errors: ErrorSet
    var submitted: bool
    var processing: bool
    const cart: Cart.CartStore

    /** Never processing and completed at once. */
    ghost predicate Valid()
      reads this
    {
      !(processing && submitted)
    }

    constructor (cart: Cart.CartStore)
      ensures Valid() && this.cart == cart
      ensures form == InitialForm && errors == NoErrors && !submitted && !processing
    {
      this.cart := cart;
      form, errors, submitted, processing := InitialForm, NoErrors, false, false;
    }

    function Phase(): Phase
      reads this
    {
      if submitted then Completed else if processing then Processing else Editing
    }

    /** The "nothing to checkout" screen replaces the form: the cart is empty and no order was placed. */
    function ShowsNothingToCheckout(): (b: bool)
      reads this, cart
      ensures b <==> |cart.items| == 0 && Phase() != Completed
    {
      |cart.items| == 0 && !submitted
    }

    /** `handleChange`: the input takes the value and loses its error; nothing else changes. */
    method HandleChange(f: Field, value: string)
      modifies this
      ensures form == old(form).With(f, value)
      ensures errors == old(errors).Cleared(f)
      ensures submitted == old(submitted) && processing == old(processing)
    {
      form := form.With(f, value);
      errors := errors.Cleared(f);
    }

    /**
     * `handleSubmit`, from the form as shown (so with items in the cart and before
     * completion) while its pay button is enabled (so not processing).
     * Errors block the submission; otherwise processing starts.
     */
    method HandleSubmit()
      requires Valid() && !ShowsNothingToCheckout() && !submitted && !processing
      modifies this
      ensures Valid() && form == old(form) && !submitted
      ensures !Passes(form) ==> (forall f :: errors.Get(f) == FieldError(form, f)) && Phase() == Editing
      ensures Passes(form) ==> errors == old(errors) && Phase() == Processing
    {
      var validationErrors := ValidateForm(form);
      if |validationErrors.Keys()| > 0 {
        errors := validationErrors;
        return;
      }
      processing := true;
    }

    /** The simulated payment delay has elapsed: the cart is emptied and the order shown as placed. */
    method Complete()
      requires Valid() && processing
      modifies this, cart
      ensures Valid() && Phase() == Completed
      ensures cart.items == [] && !ShowsNothingToCheckout()
      ensures form == old(form) && errors == old(errors)
    {
      cart.ClearCart();
      processing := false;
      submitted := true;
    }
  }

  /** The user types every input of `values` into the page, one change event per input. */
  method TypeIn(page: CheckoutPage, values: Form)
    modifies page
    ensures page.form == values
    ensures page.submitted == old(page.submitted) && page.processing == old(page.processing)
  {
    page.HandleChange(FirstName, values.firstName);
    page.HandleChange(LastName, values.lastName);
    page.HandleChange(Email, values.email);
    page.HandleChange(Address, values.address);
    page.HandleChange(City, values.city);
    page.HandleChange(Zip, values.zip);
    page.HandleChange(PaymentMethod, values.paymentMethod);
  }

  /**
   * A valid form, typed in input by input through the change handler (the payment
   * radio buttons included) and submitted over a non-empty cart, goes from editing
   * to processing to completed, and leaves the cart empty.
   */
  method SubmitScenario(p: Product, form: Form) returns (phases: seq<Phase>, cartAfter: seq<Cart.Line>)
    requires forall f :: f in TextFields ==> !Blank(form.Get(f))
    requires EmailPattern(form.email)
    ensures phases == [Editing, Processing, Completed]
    ensures cartAfter == []
  {
    var cart := new Cart.CartStore(None);
    cart.AddToCart(p);
    var page := new CheckoutPage(cart);
    TypeIn(page, form);
    phases := [page.Phase()];
    ValidFormNoErrors(form);
    page.HandleSubmit();
    phases := phases + [page.Phase()];
    page.Complete();
    phases := phases + [page.Phase()];
    cartAfter := cart.items;
  }
}
