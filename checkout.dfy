/** The checkout page: a form record, a per-field error map, a step counter
    (1 shipping, 2 payment) and a processing flag, driven by the page's event
    handlers. The order total comes from the shared pricing rule. */
module Checkout {
  import opened Seqs
  import opened CartStore
  import Pricing

  /** The names of the form's inputs (the `name` attribute of each control). */
  datatype Field =
    | Email | FirstName | LastName | Address | City | State | ZipCode | Country | Phone
    | PaymentMethod | CardNumber | ExpiryDate | Cvv | NameOnCard | SaveInfo | Newsletter
  {
    /** The two checkboxes; every other input holds a string. */
    predicate IsFlag() { SaveInfo? || Newsletter? }

    /** The contact and shipping inputs of step 1. */
    predicate IsContact() { Email? || FirstName? || LastName? || Address? || City? || State? || ZipCode? || Country? || Phone? }
  }

  /** What an input stores: the text of a text, select or radio input, or the
      `checked` state of a checkbox. */
  datatype FieldValue = Text(text: string) | Flag(on: bool)

  /** JavaScript falsiness of a stored value, as `!form.email` tests it. */
  predicate Falsy(v: FieldValue)
  {
    v == Text("") || v == Flag(false)
  }

  datatype CheckoutForm = CheckoutForm(
    email: string, firstName: string, lastName: string, address: string,
    city: string, state: string, zipCode: string, country: string, phone: string,
    paymentMethod: string, cardNumber: string, expiryDate: string, cvv: string,
    nameOnCard: string, saveInfo: bool, newsletter: bool)
  {
    /** `form[name]`. */
    function Get(f: Field): (v: FieldValue)
      ensures v.Flag? <==> f.IsFlag()
    {
      match f
      case Email => Text(email)
      case FirstName => Text(firstName)
      case LastName => Text(lastName)
      case Address => Text(address)
      case City => Text(city)
      case State => Text(state)
      case ZipCode => Text(zipCode)
      case Country => Text(country)
      case Phone => Text(phone)
      case PaymentMethod => Text(paymentMethod)
      case CardNumber => Text(cardNumber)
      case ExpiryDate => Text(expiryDate)
      case Cvv => Text(cvv)
      case NameOnCard => Text(nameOnCard)
      case SaveInfo => Flag(saveInfo)
      case Newsletter => Flag(newsletter)
    }

    /** `{ ...form, [name]: v }`: field `f` holds `v` afterwards and every
        other field is unchanged. */
    function With(f: Field, v: FieldValue): (r: CheckoutForm)
      requires v.Flag? <==> f.IsFlag()
      ensures r.Get(f) == v
      ensures forall g :: g != f ==> r.Get(g) == Get(g)
    {
      if f.IsFlag() then WithFlag(f, v)
      else if f.IsContact() then WithContact(f, v)
      else WithPayment(f, v)
    }

    function WithContact(f: Field, v: FieldValue): (r: CheckoutForm)
      requires f.IsContact() && v.Text?
      ensures r.Get(f) == v
      ensures forall g :: g != f ==> r.Get(g) == Get(g)
    {
      match f
      case Email => Edited(this.(email := v.text), f, v)
      case FirstName => Edited(this.(firstName := v.text), f, v)
      case LastName => Edited(this.(lastName := v.text), f, v)
      case Address => Edited(this.(address := v.text), f, v)
      case City => Edited(this.(city := v.text), f, v)
      case State => Edited(this.(state := v.text), f, v)
      case ZipCode => Edited(this.(zipCode := v.text), f, v)
      case Country => Edited(this.(country := v.text), f, v)
      case Phone => Edited(this.(phone := v.text), f, v)
    }

    function WithPayment(f: Field, v: FieldValue): (r: CheckoutForm)
      requires !f.IsContact() && !f.IsFlag() && v.Text?
      ensures r.Get(f) == v
      ensures forall g :: g != f ==> r.Get(g) == Get(g)
    {
      match f
      case PaymentMethod => Edited(this.(paymentMethod := v.text), f, v)
      case CardNumber => Edited(this.(cardNumber := v.text), f, v)
      case ExpiryDate => Edited(this.(expiryDate := v.text), f, v)
      case Cvv => Edited(this.(cvv := v.text), f, v)
      case NameOnCard => Edited(this.(nameOnCard := v.text), f, v)
    }

    function WithFlag(f: Field, v: FieldValue): (r: CheckoutForm)
      requires f.IsFlag() && v.Flag?
      ensures r.Get(f) == v
      ensures forall g :: g != f ==> r.Get(g) == Get(g)
    {
      match f
      case SaveInfo => Edited(this.(saveInfo := v.on), f, v)
      case Newsletter => Edited(this.(newsletter := v.on), f, v)
    }

    /** `edited`, checked to be this form with field `f` set to `v`. */
    function Edited(edited: CheckoutForm, f: Field, v: FieldValue): (r: CheckoutForm)
      requires Stores(edited, f, v) && SameExcept(edited, this, f)
      ensures r.Get(f) == v
      ensures forall g :: g != f ==> r.Get(g) == Get(g)
    {
      StoresGet(edited, f, v);
      SameExceptAgrees(edited, this, f);
      edited
    }
  }

  /** `a` and `b` hold the same value in every field other than `f`. */
  predicate SameExcept(a: CheckoutForm, b: CheckoutForm, f: Field)
  {
    && (f != Email ==> a.email == b.email)
    && (f != FirstName ==> a.firstName == b.firstName)
    && (f != LastName ==> a.lastName == b.lastName)
    && (f != Address ==> a.address == b.address)
    && (f != City ==> a.city == b.city)
    && (f != State ==> a.state == b.state)
    && (f != ZipCode ==> a.zipCode == b.zipCode)
    && (f != Country ==> a.country == b.country)
    && (f != Phone ==> a.phone == b.phone)
    && (f != PaymentMethod ==> a.paymentMethod == b.paymentMethod)
    && (f != CardNumber ==> a.cardNumber == b.cardNumber)
    && (f != ExpiryDate ==> a.expiryDate == b.expiryDate)
    && (f != Cvv ==> a.cvv == b.cvv)
    && (f != NameOnCard ==> a.nameOnCard == b.nameOnCard)
    && (f != SaveInfo ==> a.saveInfo == b.saveInfo)
    && (f != Newsletter ==> a.newsletter == b.newsletter)
  }

  /** Field `f` of `a` holds `v`. */
  predicate Stores(a: CheckoutForm, f: Field, v: FieldValue)
  {
    && (f == Email ==> v == Text(a.email))
    && (f == FirstName ==> v == Text(a.firstName))
    && (f == LastName ==> v == Text(a.lastName))
    && (f == Address ==> v == Text(a.address))
    && (f == City ==> v == Text(a.city))
    && (f == State ==> v == Text(a.state))
    && (f == ZipCode ==> v == Text(a.zipCode))
    && (f == Country ==> v == Text(a.country))
    && (f == Phone ==> v == Text(a.phone))
    && (f == PaymentMethod ==> v == Text(a.paymentMethod))
    && (f == CardNumber ==> v == Text(a.cardNumber))
    && (f == ExpiryDate ==> v == Text(a.expiryDate))
    && (f == Cvv ==> v == Text(a.cvv))
    && (f == NameOnCard ==> v == Text(a.nameOnCard))
    && (f == SaveInfo ==> v == Flag(a.saveInfo))
    && (f == Newsletter ==> v == Flag(a.newsletter))
  }

  lemma StoresGet(a: CheckoutForm, f: Field, v: FieldValue)
    requires Stores(a, f, v)
    ensures a.Get(f) == v
  {
  }

  lemma SameExceptAgrees(a: CheckoutForm, b: CheckoutForm, f: Field)
    requires SameExcept(a, b, f)
    ensures forall g :: g != f ==> a.Get(g) == b.Get(g)
  {
  }

  /** The form as the page first shows it. */
  const InitialForm := CheckoutForm("", "", "", "", "", "", "", "United States", "",
                                    "card", "", "", "", "", false, false)

  /** The message `validateStep` records for a missing required field. */
  function RequiredMessage(f: Field): string
  {
    match f
    case Email => "Email is required"
    case FirstName => "First name is required"
    case LastName => "Last name is required"
    case Address => "Address is required"
    case City => "City is required"
    case State => "State is required"
    case ZipCode => "ZIP code is required"
    case CardNumber => "Card number is required"
    case ExpiryDate => "Expiry date is required"
    case Cvv => "CVV is required"
    case NameOnCard => "Name on card is required"
    case _ => ""
  }

  /** The shipping fields step 1 requires; phone and country are not among them. */
  const ShippingRequired: seq<Field> := [Email, FirstName, LastName, Address, City, State, ZipCode]

  /** The card fields step 2 requires when paying by card. */
  const CardRequired: seq<Field> := [CardNumber, ExpiryDate, Cvv, NameOnCard]

  /** The fields checked when validating `step` with the given payment method. */
  function RequiredFields(step: int, paymentMethod: string): (r: seq<Field>)
    ensures forall f :: f in r ==> RequiredMessage(f) != ""
  {
    if step == 1 then ShippingRequired
    else if step == 2 && paymentMethod == "card" then CardRequired
    else []
  }

  /** Checking `fields` one after another, as `validateStep` does: an entry,
      with its message, for exactly those that are empty in `form`. */
  function CheckFields(form: CheckoutForm, fields: seq<Field>): (errs: map<Field, string>)
    ensures forall f :: f in errs <==> f in fields && Falsy(form.Get(f))
    ensures forall f :: f in errs ==> errs[f] == RequiredMessage(f)
    decreases |fields|
  {
    if fields == [] then map[]
    else
      var errs := CheckFields(form, fields[..|fields| - 1]);
      var f := fields[|fields| - 1];
      assert fields == fields[..|fields| - 1] + [f];
      if Falsy(form.Get(f)) then errs[f := RequiredMessage(f)] else errs
  }

  /** Checking one more field adds its entry exactly when it is empty. */
  lemma CheckOneMore(form: CheckoutForm, fields: seq<Field>, f: Field)
    ensures CheckFields(form, fields + [f]) ==
      if Falsy(form.Get(f)) then CheckFields(form, fields)[f := RequiredMessage(f)]
      else CheckFields(form, fields)
  {
    assert (fields + [f])[..|fields|] == fields;
  }

  /** The error map `validateStep(step)` builds from scratch. */
  function StepErrors(form: CheckoutForm, step: int): map<Field, string>
  {
    CheckFields(form, RequiredFields(step, form.paymentMethod))
  }

  /** Step 1 reports exactly the empty ones among the seven shipping fields. */
  lemma Step1ErrorsExactly(form: CheckoutForm)
    ensures forall f :: f in StepErrors(form, 1) <==>
      f in {Email, FirstName, LastName, Address, City, State, ZipCode} && form.Get(f) == Text("")
    ensures Phone !in StepErrors(form, 1) && Country !in StepErrors(form, 1)
  {
  }

  /** Step 2 when paying by card reports exactly the empty card fields. */
  lemma Step2CardErrorsExactly(form: CheckoutForm)
    requires form.paymentMethod == "card"
    ensures forall f :: f in StepErrors(form, 2) <==>
      f in {CardNumber, ExpiryDate, Cvv, NameOnCard} && form.Get(f) == Text("")
  {
  }

  /** Any other payment method passes step 2 whatever the card fields hold,
      and any step other than 1 and 2 always passes. */
  lemma OnlySteps1And2CanFail(form: CheckoutForm, step: int)
    requires step != 1 && (step != 2 || form.paymentMethod != "card")
    ensures StepErrors(form, step) == map[]
  {
  }

  /** Editing field `f` can change the validation outcome of `f` alone: every
      other field's error entry is the same before and after. */
  lemma {:induction false} EditAffectsOnlyItsOwnError(form: CheckoutForm, f: Field, v: FieldValue, step: int)
    requires (v.Flag? <==> f.IsFlag()) && f != PaymentMethod
    ensures forall g :: g != f ==>
      (g in StepErrors(form.With(f, v), step) <==> g in StepErrors(form, step))
  {
    var form' := form.With(f, v);
    assert form'.paymentMethod == form.paymentMethod by {
      assert form'.Get(PaymentMethod) == form.Get(PaymentMethod);
    }
  }

  /** Submission re-validates step 2 only: an order can go through with every
      shipping field still empty, for instance when paying by PayPal. */
  lemma SubmitSkipsShippingFields()
    ensures var form := InitialForm.(paymentMethod := "paypal");
      StepErrors(form, 1) != map[] && StepErrors(form, 2) == map[]
  {
    var form := InitialForm.(paymentMethod := "paypal");
    assert Email in StepErrors(form, 1);
  }

  /** A change event as the page receives it (`e.target`). */
  datatype InputEvent = InputEvent(name: Field, value: string, isCheckbox: bool, checked: bool)
  {
    /** The page wires a checkbox to each flag field and a text, select or
        radio input to every other field. */
    predicate WellWired() { isCheckbox <==> name.IsFlag() }

    /** `type === 'checkbox' ? checked : value`. */
    function Stored(): FieldValue
    {
      if isCheckbox then Flag(checked) else Text(value)
    }
  }

  /** What submission hands to the order-success page. */
  datatype OrderSummary = OrderSummary(orderNumber: string, total: real, email: string)

  class CheckoutPage {
    /** `getTotalPrice()` of the cart store at render time. */
    const subtotal: real

    var form: CheckoutForm
    var errors: map<Field, string>
    var currentStep: int
    var isProcessing: bool

    /** Every recorded error carries its field's message (none is empty). */
    ghost predicate Valid()
      reads this
    {
      forall f :: f in errors ==> errors[f] == RequiredMessage(f) && errors[f] != ""
    }

    constructor (subtotal: real)
      ensures Valid()
      ensures this.subtotal == subtotal
      ensures form == InitialForm && errors == map[] && currentStep == 1 && !isProcessing
    {
      this.subtotal := subtotal;
      form := InitialForm;
      errors := map[];
      currentStep := 1;
      isProcessing := false;
    }

    /** `validateStep`: replaces the whole error map with a fresh one and
        reports whether it is empty. */
    method ValidateStep(step: int) returns (ok: bool)
      modifies this`errors
      ensures Valid()
      ensures errors == StepErrors(form, step)
      ensures ok <==> errors == map[]
    {
      var newErrors := StepErrors(form, step);
      errors := newErrors;
      ok := |newErrors| == 0;
    }

    /** `handleInputChange`: stores the new value of one field and clears that
        field's error if one is shown; nothing else changes. */
    method HandleInputChange(e: InputEvent)
      requires Valid() && e.WellWired()
      modifies this`form, this`errors
      ensures Valid()
      ensures form == old(form).With(e.name, e.Stored())
      ensures errors == old(errors) - {e.name}
      ensures forall g :: g != e.name && g in old(errors) ==> g in errors && errors[g] == old(errors)[g]
    {
      form := form.With(e.name, e.Stored());
      if e.name in errors && errors[e.name] != "" {
        errors := errors - {e.name};
      }
    }

    /** `handleNextStep`: moves on exactly when the current step validates. */
    method HandleNextStep()
      modifies this`errors, this`currentStep
      ensures Valid()
      ensures errors == StepErrors(form, old(currentStep))
      ensures currentStep == if errors == map[] then old(currentStep) + 1 else old(currentStep)
    {
      var ok := ValidateStep(currentStep);
      if ok {
        currentStep := currentStep + 1;
      }
    }

    /** `handlePreviousStep`: steps back unconditionally. */
    method HandlePreviousStep()
      modifies this`currentStep
      ensures currentStep == old(currentStep) - 1
    {
      currentStep := currentStep - 1;
    }

    /** `handleSubmit`: re-validates step 2; on failure nothing else happens.
        On success the page starts processing, clears the cart and hands the
        final total and the form's email to the success page. `stamp` stands
        for `Date.now()`. */
    method HandleSubmit(stamp: string) returns (calls: seq<StoreCall>, summary: Option<OrderSummary>)
      modifies this`errors, this`isProcessing
      ensures Valid()
      ensures errors == StepErrors(form, 2)
      ensures errors != map[] ==> calls == [] && summary == None && isProcessing == old(isProcessing)
      ensures errors == map[] ==>
        isProcessing && calls == [ClearCart] &&
        summary == Some(OrderSummary("ETY-" + stamp, Pricing.FinalTotal(subtotal), form.email))
    {
      var ok := ValidateStep(2);
      if !ok {
        return [], None;
      }
      isProcessing := true;
      calls := [ClearCart];
      summary := Some(OrderSummary("ETY-" + stamp, subtotal + Pricing.Shipping(subtotal) + Pricing.Tax(subtotal), form.email));
    }
  }

  /** A shipping form filled in except for the email. */
  function ShippingWithoutEmail(): CheckoutForm
  {
    CheckoutForm("", "Ada", "L", "1 Main St", "Springfield", "IL", "62701",
                 "United States", "", "card", "", "", "", "", false, false)
  }

  /** Step 1 of that form fails on the email alone, and typing an email in
      clears it. */
  lemma OnlyEmailBlocksStep1()
    ensures StepErrors(ShippingWithoutEmail(), 1).Keys == {Email}
    ensures StepErrors(ShippingWithoutEmail().With(Email, Text("ada@example.com")), 1) == map[]
  {
    var before := ShippingWithoutEmail();
    var after := before.With(Email, Text("ada@example.com"));
    Step1ErrorsExactly(before);
    assert after == CheckoutForm("ada@example.com", "Ada", "L", "1 Main St", "Springfield", "IL",
                                 "62701", "United States", "", "card", "", "", "", "", false, false);
    Step1ErrorsExactly(after);
    assert StepErrors(after, 1).Keys == {};
  }

  /** A shopper who leaves the email empty cannot get past step 1; after
      filling it in, the error is gone and the page advances. */
  method FillingEmailUnblocksStep1() returns (stepAfterFirstTry: int, stepAfterEmail: int)
    ensures stepAfterFirstTry == 1 && stepAfterEmail == 2
  {
    var page := new CheckoutPage(20.0);
    // The form as six earlier input changes (first name to ZIP code) left it;
    // `HandleInputChange` and `CheckoutForm.With` describe each such change.
    page.form := ShippingWithoutEmail();
    OnlyEmailBlocksStep1();
    page.HandleNextStep();
    assert Email in page.errors;
    stepAfterFirstTry := page.currentStep;
    page.HandleInputChange(InputEvent(Email, "ada@example.com", false, false));
    assert Email !in page.errors;
    page.HandleNextStep();
    stepAfterEmail := page.currentStep;
  }
}
