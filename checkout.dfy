/**
 * The checkout wizard: three steps (shipping, payment, review) moved through
 * with Continue/Back, gated by the shipping-form schema, and the two
 * callbacks of the payment widget.
 */
module Checkout {

  import opened Wrappers
  import opened Forms
  import opened Pricing
  import JsMath

  datatype Address = Address(street: string, city: string, state: string, zipCode: string, country: string)

  datatype ShippingForm = ShippingForm(name: string, email: string, address: Address)

  /**
   * The shipping schema's rules as one predicate. Whether a string is an email
   * address is decided by `isEmail`, which stands for the schema library's own check.
   */
  predicate ShippingValid(f: ShippingForm, isEmail: string -> bool)
    ensures ShippingValid(f, isEmail) ==> f.name != [] && f.address.street != [] && f.address.zipCode != []
  {
    && |f.name| >= 2
    && isEmail(f.email)
    && |f.address.street| >= 5
    && |f.address.city| >= 2
    && |f.address.state| >= 2
    && |f.address.zipCode| >= 5
    && |f.address.country| >= 2
  }

  /** The field errors the schema reports, in the order the fields are declared. */
  function ShippingErrors(f: ShippingForm, isEmail: string -> bool): (errs: seq<FieldError>)
    ensures errs == [] <==> ShippingValid(f, isEmail)
    ensures |f.address.zipCode| < 5 ==> FieldError("address.zipCode", "ZIP code is required") in errs
    ensures |errs| <= 7
  {
    Rule(|f.name| >= 2, "name", "Name must be at least 2 characters")
    + Rule(isEmail(f.email), "email", "Invalid email address")
    + Rule(|f.address.street| >= 5, "address.street", "Street address is required")
    + Rule(|f.address.city| >= 2, "address.city", "City is required")
    + Rule(|f.address.state| >= 2, "address.state", "State is required")
    + Rule(|f.address.zipCode| >= 5, "address.zipCode", "ZIP code is required")
    + Rule(|f.address.country| >= 2, "address.country", "Country is required")
  }

  const FirstStep: int := 1
  const LastStep: int := 3

  predicate StepInRange(step: int)
  {
    FirstStep <= step <= LastStep
  }

  /** `Math.min(prev + 1, 3)` */
  function NextStep(step: int): (r: int)
    ensures StepInRange(step) ==> StepInRange(r) && step <= r <= step + 1
    ensures StepInRange(step) ==> (r == step <==> step == LastStep)
  {
    JsMath.Min(step + 1, LastStep)
  }

  /** `Math.max(prev - 1, 1)` */
  function PreviousStep(step: int): (r: int)
    ensures StepInRange(step) ==> StepInRange(r) && step - 1 <= r <= step
    ensures StepInRange(step) ==> (r == step <==> step == FirstStep)
  {
    JsMath.Max(step - 1, FirstStep)
  }

  const PaymentFailedMessage: string := "Payment failed. Please try again."

  /** `error.message || "Payment failed. Please try again."`: an absent or empty message falls back. */
  function PaymentErrorText(message: Option<string>): (r: string)
    ensures r != ""
    ensures message.Some? && message.value != "" ==> r == message.value
    ensures message.None? || message.value == "" ==> r == PaymentFailedMessage
  {
    if message.Some? && message.value != "" then message.value else PaymentFailedMessage
  }

  datatype CheckoutState = CheckoutState(step: int, loading: bool, paymentError: Option<string>)

  const InitialState: CheckoutState := CheckoutState(FirstStep, false, None)

  /**
   * What the user or the payment widget can do. `PaymentComplete(threw)` is the
   * success callback; `threw` says whether its body raised before reaching the
   * step change (it only logs, so in practice it does not).
   */
  datatype Event =
    | Next
    | Back
    | Submit(form: ShippingForm)
    | PaymentComplete(threw: bool)
    | PaymentFailed(message: Option<string>)

  /** `onSubmit`, run once the form has passed the schema: Continue below the last step, otherwise only a log line. */
  function AfterValidSubmit(s: CheckoutState): (t: CheckoutState)
    ensures s.step < LastStep ==> t == s.(step := s.step + 1)
    ensures s.step >= LastStep ==> t == s
  {
    if s.step < LastStep then s.(step := NextStep(s.step)) else s
  }

  /** One event applied to the checkout state. */
  function Transition(s: CheckoutState, e: Event, isEmail: string -> bool): (t: CheckoutState)
    ensures StepInRange(s.step) ==> StepInRange(t.step)
    ensures e.Submit? && !ShippingValid(e.form, isEmail) ==> t == s
    ensures e.PaymentFailed? ==> t.step == s.step && t.loading == s.loading
    ensures e.PaymentComplete? ==> !t.loading
    ensures e.PaymentComplete? && !e.threw ==> t.step == LastStep
  {
    match e
    case Next => s.(step := NextStep(s.step))
    case Back => s.(step := PreviousStep(s.step))
    case Submit(form) => if ShippingErrors(form, isEmail) != [] then s else AfterValidSubmit(s)
    case PaymentComplete(threw) =>
      if threw then s.(paymentError := Some(PaymentFailedMessage), loading := false)
      else s.(step := LastStep, loading := false)
    case PaymentFailed(message) => s.(paymentError := Some(PaymentErrorText(message)))
  }

  /** The state after a sequence of events; payment-error callbacks alone never move the step. */
  function Run(s: CheckoutState, events: seq<Event>, isEmail: string -> bool): (t: CheckoutState)
    ensures (forall i :: 0 <= i < |events| ==> events[i].PaymentFailed?) ==> t.step == s.step
    decreases |events|
  {
    if events == [] then s else Run(Transition(s, events[0], isEmail), events[1..], isEmail)
  }

  /** Whatever the user and the payment widget do, the step stays within 1..3. */
  lemma {:induction false} RunKeepsStepInRange(s: CheckoutState, events: seq<Event>, isEmail: string -> bool)
    requires StepInRange(s.step)
    ensures StepInRange(Run(s, events, isEmail).step)
    decreases |events|
  {
    if events != [] {
      RunKeepsStepInRange(Transition(s, events[0], isEmail), events[1..], isEmail);
    }
  }

  /** A ZIP code of four characters is refused with the ZIP message and the wizard stays where it is. */
  lemma ShortZipRefused(s: CheckoutState, f: ShippingForm, isEmail: string -> bool)
    requires f.address.zipCode == "1234"
    ensures FieldError("address.zipCode", "ZIP code is required") in ShippingErrors(f, isEmail)
    ensures Transition(s, Submit(f), isEmail) == s
  {
  }

  /** The checkout page's state: the current step, the busy flag and the payment error on display. */
  class CheckoutFlow {

    var step: int
    var loading: bool
    var paymentError: Option<string>
    const cartItems: seq<LineItem>

    function State(): CheckoutState
      reads this
    {
      CheckoutState(step, loading, paymentError)
    }

    constructor (cartItems: seq<LineItem>)
      ensures State() == InitialState && this.cartItems == cartItems
    {
      step, loading, paymentError := FirstStep, false, None;
      this.cartItems := cartItems;
    }

    method HandleNext()
      modifies this
      ensures step == NextStep(old(step))
      ensures loading == old(loading) && paymentError == old(paymentError)
    {
      step := JsMath.Min(step + 1, LastStep);
    }

    method HandleBack()
      modifies this
      ensures step == PreviousStep(old(step))
      ensures loading == old(loading) && paymentError == old(paymentError)
    {
      step := JsMath.Max(step - 1, FirstStep);
    }

    /** The widget's success callback. */
    method HandlePaymentComplete(threw: bool)
      modifies this
      ensures !loading
      ensures !threw ==> step == LastStep && paymentError == old(paymentError)
      ensures threw ==> step == old(step) && paymentError == Some(PaymentFailedMessage)
    {
      loading := true;
      if threw {
        paymentError := Some(PaymentFailedMessage);
      } else {
        step := LastStep;
      }
      loading := false;
    }

    /** The widget's error callback. */
    method HandlePaymentError(message: Option<string>)
      modifies this
      ensures paymentError == Some(PaymentErrorText(message))
      ensures step == old(step) && loading == old(loading)
    {
      paymentError := Some(PaymentErrorText(message));
    }

    /** `onSubmit`: the form has already passed the schema. */
    method OnSubmit()
      modifies this
      ensures State() == AfterValidSubmit(old(State()))
    {
      if step < LastStep {
        HandleNext();
        return;
      }
    }

    /** The form's submit: the schema runs first and `onSubmit` only when it reports nothing. */
    method Submit(form: ShippingForm, isEmail: string -> bool) returns (errors: seq<FieldError>)
      modifies this
      ensures errors == ShippingErrors(form, isEmail)
      ensures State() == Transition(old(State()), Event.Submit(form), isEmail)
    {
      errors := ShippingErrors(form, isEmail);
      if errors == [] {
        OnSubmit();
      }
    }

    /** The order summary, with the cart's formula. */
    function Totals(): (t: OrderTotals)
      ensures t.subtotal == Subtotal(cartItems) && t.shipping == Shipping
      ensures t.total == t.subtotal + t.shipping + t.tax
      ensures NonNegative(cartItems) ==> t.total >= Shipping
    {
      ComputeTotals(cartItems)
    }
  }

}
