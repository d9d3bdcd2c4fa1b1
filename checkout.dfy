/** `place_order`, shared by the three agents: open the cart, proceed to checkout, fill the
    address form only if the page shows one, fill the card form only if the payment information
    asks for a card, submit, and wait for the confirmation. A missing address or card key raises
    `KeyError`, and the probe for the address form can raise too (the checkout click may have
    replaced the page under it); the outer handler turns either into
    `{success: False, error: str(e)}`. */
module Checkout {
  import opened Wrappers
  import opened Session

  datatype OrderResult = Placed(orderId: Option<string>) | Failed(error: string)

  const ConfirmFailure := "Failed to confirm order placement"

  /** `str(KeyError(key))` for the plain identifier keys the forms read: the key in quotes. */
  function KeyErrorText(key: string): string { "'" + key + "'" }

  /** What the browser reports during checkout. */
  datatype OrderPage = OrderPage(
    cartLoaded: bool,                 // the cart page navigation returned normally
    loadError: string,                // `str(e)` of the navigation error otherwise
    probeError: Option<string>,       // `str(e)` if the address-form probe raised
    addressFormShown: bool,           // the address-form probe found an element
    confirmed: bool,                  // the confirmation element appeared within the wait bound
    confirmationText: Option<string>) // the text read once it appeared

  /** One platform's checkout: the cart URL, the clicks that reach checkout, the address and
      card forms, and the clicks that submit the order. */
  datatype Plan = Plan(cartUrl: string, toCheckout: seq<Step>, addressForm: Script, cardForm: Script, submit: seq<Step>)

  /** The order flow. `useCard` is the platform's test on the payment information;
      `confirmation` is what the platform makes of the confirmation text. */
  function PlaceOrder(plan: Plan, useCard: bool, shipping: map<string, string>, payment: map<string, string>,
                      page: OrderPage, confirmation: OrderResult): (r: Trace<OrderResult>)
    ensures |r.steps| > 0 && r.steps[0] == Navigate(plan.cartUrl)
    ensures r.result.Placed? <==>
      && page.cartLoaded
      && page.probeError.None?
      && (page.addressFormShown ==> Complete(plan.addressForm, shipping))
      && (useCard ==> Complete(plan.cardForm, payment))
      && page.confirmed
      && confirmation.Placed?
    ensures r.result.Placed? ==> r.result == confirmation
    ensures !page.cartLoaded ==> r == Trace([Navigate(plan.cartUrl)], Failed(page.loadError))
    ensures page.cartLoaded && page.probeError.Some? ==>
      r == Trace([Navigate(plan.cartUrl)] + plan.toCheckout, Failed(page.probeError.value))
    ensures page.cartLoaded && page.probeError.None? && page.addressFormShown
            && !Complete(plan.addressForm, shipping) ==>
      var address := Play(plan.addressForm, shipping);
      && address.missing.Some? && address.missing.value !in shipping
      && r == Trace([Navigate(plan.cartUrl)] + plan.toCheckout + address.steps,
                    Failed(KeyErrorText(address.missing.value)))
    ensures page.cartLoaded && page.probeError.None? && (page.addressFormShown ==> Complete(plan.addressForm, shipping))
            && useCard && !Complete(plan.cardForm, payment) ==>
      var card := Play(plan.cardForm, payment);
      && card.missing.Some? && card.missing.value !in payment
      && r == Trace([Navigate(plan.cartUrl)] + plan.toCheckout
                    + (if page.addressFormShown then Play(plan.addressForm, shipping).steps else [])
                    + card.steps,
                    Failed(KeyErrorText(card.missing.value)))
    ensures page.cartLoaded && page.probeError.None? && (page.addressFormShown ==> Complete(plan.addressForm, shipping))
            && (useCard ==> Complete(plan.cardForm, payment)) ==>
      && r.steps == [Navigate(plan.cartUrl)] + plan.toCheckout
                    + (if page.addressFormShown then Play(plan.addressForm, shipping).steps else [])
                    + (if useCard then Play(plan.cardForm, payment).steps else [])
                    + plan.submit
      && r.result == if page.confirmed then confirmation else Failed(ConfirmFailure)
  {
    PlayCompleteIff(plan.addressForm, shipping);
    PlayCompleteIff(plan.cardForm, payment);
    var visit := [Navigate(plan.cartUrl)];
    if !page.cartLoaded then Trace(visit, Failed(page.loadError))
    else if page.probeError.Some? then Trace(visit + plan.toCheckout, Failed(page.probeError.value))
    else
      var address := if page.addressFormShown then Play(plan.addressForm, shipping) else Fill([], None);
      var lead := visit + plan.toCheckout + address.steps;
      if address.missing.Some? then Trace(lead, Failed(KeyErrorText(address.missing.value)))
      else
        var card := if useCard then Play(plan.cardForm, payment) else Fill([], None);
        var filled := lead + card.steps;
        if card.missing.Some? then Trace(filled, Failed(KeyErrorText(card.missing.value)))
        else Trace(filled + plan.submit, if page.confirmed then confirmation else Failed(ConfirmFailure))
  }

  /** With the address form shown, a missing address key fails the order with that key's
      `KeyError` text, naming the first key the form needs and the address lacks. */
  lemma MissingAddressKeyFails(plan: Plan, useCard: bool, shipping: map<string, string>, payment: map<string, string>,
                               page: OrderPage, confirmation: OrderResult)
    requires page.cartLoaded && page.probeError.None? && page.addressFormShown
    requires !Complete(plan.addressForm, shipping)
    ensures var k := Play(plan.addressForm, shipping).missing;
      && k.Some? && k.value in Required(plan.addressForm) && k.value !in shipping
      && PlaceOrder(plan, useCard, shipping, payment, page, confirmation).result == Failed(KeyErrorText(k.value))
  {
    PlayCompleteIff(plan.addressForm, shipping);
    var fill := Play(plan.addressForm, shipping);
    assert plan.addressForm[|fill.steps|].key in Required(plan.addressForm);
  }

  /** Without the address form, the shipping address is never read. */
  lemma AddressReadOnlyWhenShown(plan: Plan, useCard: bool, s1: map<string, string>, s2: map<string, string>,
                                 payment: map<string, string>, page: OrderPage, confirmation: OrderResult)
    requires !page.addressFormShown
    ensures PlaceOrder(plan, useCard, s1, payment, page, confirmation) == PlaceOrder(plan, useCard, s2, payment, page, confirmation)
  {
  }

  /** Unless the platform's card test holds, the payment information is never read. */
  lemma CardReadOnlyWhenChosen(plan: Plan, shipping: map<string, string>, p1: map<string, string>,
                               p2: map<string, string>, page: OrderPage, confirmation: OrderResult)
    ensures PlaceOrder(plan, false, shipping, p1, page, confirmation) == PlaceOrder(plan, false, shipping, p2, page, confirmation)
  {
  }

  /** When the confirmation never appears, the order fails with the fixed confirmation error,
      whatever the confirmation text would have said. */
  lemma UnconfirmedFails(plan: Plan, useCard: bool, shipping: map<string, string>, payment: map<string, string>,
                         page: OrderPage, confirmation: OrderResult)
    requires page.cartLoaded && page.probeError.None? && !page.confirmed
    requires page.addressFormShown ==> Complete(plan.addressForm, shipping)
    requires useCard ==> Complete(plan.cardForm, payment)
    ensures PlaceOrder(plan, useCard, shipping, payment, page, confirmation).result == Failed(ConfirmFailure)
  {
    PlayCompleteIff(plan.addressForm, shipping);
    PlayCompleteIff(plan.cardForm, payment);
  }
}
