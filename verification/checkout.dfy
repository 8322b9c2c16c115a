/** The checkout flow of the cart panel: which step the checkout button leads
    to, the validation of the delivery form, and the order message that ends
    up being sent, if any. */
module Checkout {
  import opened Wrappers
  import opened Text
  import opened Cart
  import opened Pricing
  import opened Message

  /** The value of the `shippingMethod` radio button, once read back. */
  const DeliveryValue: string := "delivery"

  /** `getSelectedShippingMethod()`: the value of the checked radio button,
      `"delivery"` when none is checked or the value is empty. Every caller
      only asks whether the answer is `"delivery"`, so any other value means
      pickup. */
  function SelectedMethod(checked: Option<string>): (m: ShippingMethod)
    ensures m == Delivery <==> checked.GetOr(DeliveryValue) in {"", DeliveryValue}
  {
    match checked
    case None => Delivery
    case Some(v) => if v == "" || v == DeliveryValue then Delivery else Pickup
  }

  /** The shipping fee is charged only when the radio reads as delivery (or
      nothing is selected) and the subtotal is positive and under the threshold. */
  lemma FeeFollowsSelection(checked: Option<string>, subtotal: int)
    ensures Shipping(subtotal, SelectedMethod(checked)) == ShippingFee <==>
      (checked == None || checked == Some("") || checked == Some(DeliveryValue)) && 0 < subtotal < ShippingThreshold
  {
  }

  /** What pressing the checkout button shows. */
  datatype Step =
    | EmptyCartNotice   // the "your cart is empty" toast; nothing else happens
    | DeliveryForm      // the modal asking for address, name and phone
    | PickupPrompt      // the toast asking to confirm a pickup at the store

  /** `handleCheckout()`: an empty cart stops everything; otherwise the
      selected method chooses between the delivery form and the pickup prompt. */
  function HandleCheckout(cart: Cart, choice: ShippingMethod): (step: Step)
    ensures step == EmptyCartNotice <==> |cart| == 0
    ensures step == DeliveryForm <==> |cart| > 0 && choice == Delivery
    ensures step == PickupPrompt <==> |cart| > 0 && choice == Pickup
  {
    if |cart| == 0 then EmptyCartNotice
    else
      match choice
      case Delivery => DeliveryForm
      case Pickup => PickupPrompt
  }

  /** What the delivery form submission leads to. */
  datatype FormOutcome =
    | Rejected                                         // the "complete all fields" alert; the form stays open
    | Submitted(details: DeliveryDetails, message: string)

  /** `handleDeliveryFormSubmit`: the three fields are trimmed; if any of them
      is then empty the form is rejected, otherwise the order message with the
      trimmed details is built. */
  function SubmitDeliveryForm(cart: Cart, choice: ShippingMethod, address: string, name: string, phone: string, fmt: int -> string): (o: FormOutcome)
    ensures o.Rejected? <==> AllSpace(address) || AllSpace(name) || AllSpace(phone)
    ensures o.Submitted? ==>
      && o.details.address != [] && o.details.name != [] && o.details.phone != []
      && (exists k :: Padded(address, o.details.address, k))
      && (exists k :: Padded(name, o.details.name, k))
      && (exists k :: Padded(phone, o.details.phone, k))
      && o.message == Build(cart, choice, Some(o.details), fmt)
    ensures o.Submitted? ==> o.details == DeliveryDetails(Trim(address), Trim(name), Trim(phone))
  {
    var a, n, p := Trim(address), Trim(name), Trim(phone);
    if a == [] || n == [] || p == [] then Rejected
    else
      var details := DeliveryDetails(a, n, p);
      Submitted(details, Build(cart, choice, Some(details), fmt))
  }

  /** How the customer answers the step the checkout button led to. */
  datatype Reply =
    | Dismiss                                           // closes the form, cancels the prompt, or ignores the toast
    | Accept                                            // the pickup prompt's "Aceptar"
    | FillForm(address: string, name: string, phone: string)

  /** The whole checkout: the message handed to WhatsApp, if any, when the
      customer answers the step with `reply`. A rejected form sends nothing. */
  function RunCheckout(cart: Cart, choice: ShippingMethod, reply: Reply, fmt: int -> string): (sent: Option<string>)
    ensures |cart| == 0 ==> sent == None
    ensures reply == Dismiss ==> sent == None
  {
    match HandleCheckout(cart, choice)
    case EmptyCartNotice => None
    case PickupPrompt => if reply == Accept then Some(Build(cart, choice, None, fmt)) else None
    case DeliveryForm =>
      if reply.FillForm? then
        match SubmitDeliveryForm(cart, choice, reply.address, reply.name, reply.phone, fmt)
        case Rejected => None
        case Submitted(_, msg) => Some(msg)
      else None
  }

  /** A message is sent exactly when the cart has items and the customer
      accepts the pickup prompt, or fills every field of the delivery form. */
  lemma SentExactly(cart: Cart, choice: ShippingMethod, reply: Reply, fmt: int -> string)
    ensures RunCheckout(cart, choice, reply, fmt).Some? <==>
      && |cart| > 0
      && (choice == Pickup ==> reply == Accept)
      && (choice == Delivery ==> reply.FillForm? && !AllSpace(reply.address) && !AllSpace(reply.name) && !AllSpace(reply.phone))
  {
  }

  /** The delivery details a form reply carries once trimmed; none for pickup. */
  function SentDetails(choice: ShippingMethod, reply: Reply): Option<DeliveryDetails> {
    if choice == Delivery && reply.FillForm? then Some(DeliveryDetails(Trim(reply.address), Trim(reply.name), Trim(reply.phone)))
    else None
  }

  /** Whatever is sent is the order message of the current cart and method,
      with the trimmed form fields for delivery and without details for pickup. */
  lemma SentIsOrderMessage(cart: Cart, choice: ShippingMethod, reply: Reply, fmt: int -> string)
    requires RunCheckout(cart, choice, reply, fmt).Some?
    ensures |cart| > 0
    ensures choice == Pickup ==> SentDetails(choice, reply) == None
    ensures choice == Delivery ==> reply.FillForm? && Trim(reply.address) != [] && Trim(reply.name) != [] && Trim(reply.phone) != []
    ensures RunCheckout(cart, choice, reply, fmt).value == Build(cart, choice, SentDetails(choice, reply), fmt)
  {
  }

  lemma NoBreakInSentDetails(choice: ShippingMethod, reply: Reply)
    requires reply.FillForm? ==> '\n' !in reply.address && '\n' !in reply.name && '\n' !in reply.phone
    ensures var d := SentDetails(choice, reply);
      d.Some? ==> '\n' !in d.value.name && '\n' !in d.value.address && '\n' !in d.value.phone
  {
    if choice == Delivery && reply.FillForm? {
      var a, n, p := Trim(reply.address), Trim(reply.name), Trim(reply.phone);
      assert '\n' !in a by { TrimKeepsOut(reply.address, '\n'); }
      assert '\n' !in n by { TrimKeepsOut(reply.name, '\n'); }
      assert '\n' !in p by { TrimKeepsOut(reply.phone, '\n'); }
      assert SentDetails(choice, reply) == Some(DeliveryDetails(a, n, p));
    }
  }

  /** A sent message is read by the store line by line as the layout of the
      order message (see `Message.MessageContents` for what each line holds):
      with the trimmed delivery fields when the method is delivery, and with
      the pickup line when it is pickup. */
  lemma SentMessageReadsBack(cart: Cart, choice: ShippingMethod, reply: Reply, fmt: int -> string)
    requires forall i | 0 <= i < |cart| :: '\n' !in cart[i].name
    requires forall n: int :: '\n' !in fmt(n)
    requires reply.FillForm? ==> '\n' !in reply.address && '\n' !in reply.name && '\n' !in reply.phone
    requires RunCheckout(cart, choice, reply, fmt).Some?
    ensures Split(RunCheckout(cart, choice, reply, fmt).value, '\n') == Layout(cart, choice, SentDetails(choice, reply), fmt)
  {
    SentIsOrderMessage(cart, choice, reply, fmt);
    NoBreakInSentDetails(choice, reply);
    MessageLines(cart, choice, SentDetails(choice, reply), fmt);
  }
}
