/** The Amazon agent: its URLs, selectors and forms, the keep rule for search results, and the
    order number it reads from the confirmation (`#` followed by 3-7-7 digit groups). */
module AmazonAgent {
  import opened Wrappers
  import opened Values
  import opened Session
  import Text
  import Listing
  import Product
  import Checkout

  const BaseUrl := "https://www.amazon.com"

  // ---------------------------------------------------------------------------
  // Login

  const LoginUrl := BaseUrl + "/signin"

  const LoginForm: Script := [
    Enter("#ap_email", "email"),
    Press("#continue"),
    Enter("#ap_password", "password"),
    Press("#signInSubmit")
  ]

  // ---------------------------------------------------------------------------
  // Search

  const SearchScheme := Listing.Scheme(BaseUrl + "/s?k=", "&low-price=", "&high-price=")

  lemma SearchSchemeWellFormed()
    ensures Listing.WellFormed(SearchScheme)
  {
    assert SearchScheme.minTag[1] != SearchScheme.maxTag[1];
  }

  /** What the in-page script reads from one search-result element. */
  datatype ResultCard = ResultCard(title: Option<string>, price: Option<string>, asin: Option<string>,
                                   rating: Option<string>, image: Option<string>)

  /** The keep rule: an element is kept iff its title, price text and `data-asin` are all
      non-empty; its id is the ASIN. The rating keeps the text before the first space, the
      token the page's float parse reads. */
  function Convert(card: ResultCard): (r: Option<Listing.Summary>)
    ensures r.Some? <==> Present(card.title) && Present(card.price) && Present(card.asin)
    ensures r.Some? ==> r.value.id == card.asin && Some(r.value.title) == card.title && Some(r.value.price) == card.price
  {
    if Present(card.title) && Present(card.price) && Present(card.asin) then
      var rating := if Present(card.rating) then Some(Text.Before(card.rating.value, " ")) else None;
      Some(Listing.Summary(card.asin, card.title.value, card.price.value, rating, OrNull(card.image)))
    else None
  }

  method Search(query: string, filters: Option<map<string, Scalar>>, page: Listing.SearchPage<ResultCard>)
    returns (r: Trace<seq<Listing.Summary>>)
    ensures r.steps == [Navigate(BaseUrl + "/s?k=" + query
                                  + Listing.Param("&low-price=", Lookup(filters, "min_price"))
                                  + Listing.Param("&high-price=", Lookup(filters, "max_price")))]
    ensures r.result == if page.Loaded? then Listing.Kept(page.items, Convert) else []
  {
    r := Listing.Search(SearchScheme, query, filters, page, Convert);
  }

  /** Every search result has a non-empty id, title and price, each taken from one element
      of the page; and every element with all three is in the results. */
  lemma SearchResultsComplete(items: seq<ResultCard>)
    ensures forall s :: s in Listing.Kept(items, Convert) ==>
      s.id.Some? && s.id.value != "" && s.title != "" && s.price != ""
    ensures forall i :: 0 <= i < |items| && Present(items[i].title) && Present(items[i].price) && Present(items[i].asin) ==>
      Convert(items[i]).value in Listing.Kept(items, Convert)
  {
    Listing.KeptSpec(items, Convert);
    var r, src := Listing.Kept(items, Convert), Listing.Sources(items, Convert);
    forall s | s in r ensures s.id.Some? && s.id.value != "" && s.title != "" && s.price != "" {
      var k :| 0 <= k < |r| && r[k] == s;
      assert Convert(items[src[k]]) == Some(s);
    }
    forall i | 0 <= i < |items| && Convert(items[i]).Some? ensures Convert(items[i]).value in r {
      var k :| 0 <= k < |src| && src[k] == i;
    }
  }

  /** A query containing `&` is not inserted safely: these two different requests navigate
      to the same URL. */
  lemma QueryIsNotEncoded()
    ensures Listing.SearchUrl(SearchScheme, "mouse&low-price=5", None)
         == Listing.SearchUrl(SearchScheme, "mouse", Some(map["min_price" := Int(5)]))
  {
    assert Text.IntToString(5) == "5";
  }

  // ---------------------------------------------------------------------------
  // Product page and cart

  function ProductUrl(productId: string): string { BaseUrl + "/dp/" + productId }

  function ProductDetails(productId: string, page: Option<map<string, Product.PageValue>>): (r: Trace<map<string, Product.PageValue>>)
    ensures r.steps == [Navigate(BaseUrl + "/dp/" + productId)]
    ensures page.Some? ==> "id" in r.result && r.result["id"] == Product.Text(productId)
    ensures page.None? ==> r.result == map[]
  {
    Product.Details(ProductUrl(productId), productId, page)
  }

  const QuantityDropdown := "#a-autoid-0-announce"

  function QuantityOption(quantity: int): string { "#quantity_" + Text.IntToString(quantity) }

  /** Different quantities pick different dropdown options. */
  lemma QuantityOptionInjective(q1: int, q2: int)
    requires QuantityOption(q1) == QuantityOption(q2)
    ensures q1 == q2
  {
    var tag := "#quantity_";
    assert Text.IntToString(q1) == QuantityOption(q1)[|tag|..];
    assert Text.IntToString(q2) == QuantityOption(q2)[|tag|..];
    Text.IntToStringInjective(q1, q2);
  }

  const AddToCartButton := "#add-to-cart-button"

  /** Opens the product page, picks the quantity from the dropdown only when more than one is
      wanted, clicks add-to-cart; succeeds iff the cart counter appears. */
  function AddToCart(productId: string, quantity: int, page: Product.CartPage): (r: Trace<bool>)
    ensures |r.steps| > 0 && r.steps[0] == Navigate(BaseUrl + "/dp/" + productId)
    ensures r.steps == if !page.loaded then [Navigate(BaseUrl + "/dp/" + productId)]
                       else [Navigate(BaseUrl + "/dp/" + productId)]
                            + (if quantity > 1 then [Click(QuantityDropdown), Click(QuantityOption(quantity))] else [])
                            + [Click(AddToCartButton)]
    ensures r.result <==> page.loaded && page.confirmed
    ensures Click(QuantityDropdown) in r.steps <==> page.loaded && quantity > 1
    ensures Click(QuantityOption(quantity)) in r.steps <==> page.loaded && quantity > 1
  {
    var visit := [Navigate(ProductUrl(productId))];
    if !page.loaded then Trace(visit, false)
    else
      var pick := if quantity > 1 then [Click(QuantityDropdown), Click(QuantityOption(quantity))] else [];
      assert QuantityOption(quantity)[1] == 'q' && QuantityDropdown[1] == 'a' && AddToCartButton[1] == 'a';
      Trace(visit + pick + [Click(AddToCartButton)], page.confirmed)
  }

  // ---------------------------------------------------------------------------
  // Order number

  /** An Amazon order number: three, seven and seven digits joined by dashes. */
  predicate IsOrderNumber(n: string) {
    && |n| == 19
    && Text.AllDigits(n[..3]) && n[3] == '-'
    && Text.AllDigits(n[4..11]) && n[11] == '-'
    && Text.AllDigits(n[12..])
  }

  /** `#(\d{3}-\d{7}-\d{7})` matches at index `i`. */
  predicate OrderNumberAt(s: string, i: nat) {
    i + 20 <= |s| && s[i] == '#' && IsOrderNumber(s[i + 1..i + 20])
  }

  /** `re.search(r"#(\d{3}-\d{7}-\d{7})", text).group(1)`, `None` when there is no match. */
  function OrderNumber(text: string): (r: Option<string>)
    ensures r.Some? ==> IsOrderNumber(r.value)
    ensures r.Some? ==> exists i: nat :: OrderNumberAt(text, i) && r.value == text[i + 1..i + 20]
                                   && forall j :: 0 <= j < i ==> !OrderNumberAt(text, j)
    ensures r.None? <==> forall i :: 0 <= i < |text| ==> !OrderNumberAt(text, i)
  {
    var p := (i: nat) => OrderNumberAt(text, i);
    assert forall i: nat :: p(i) == OrderNumberAt(text, i);
    match Text.FirstWhere(p, 0, |text|)
    case Some(i) => Some(text[i + 1..i + 20])
    case None => None
  }

  /** An order number placed in a text is found when no match starts before it. */
  lemma OrderNumberFound(prefix: string, n: string, suffix: string)
    requires IsOrderNumber(n)
    requires forall j :: 0 <= j < |prefix| ==> !OrderNumberAt(prefix + "#" + n + suffix, j)
    ensures OrderNumber(prefix + "#" + n + suffix) == Some(n)
  {
    var s := prefix + "#" + n + suffix;
    var i := |prefix|;
    assert s[i + 1..i + 20] == n;
    assert OrderNumberAt(s, i);
  }

  /** In particular, when no `#` comes before it. */
  lemma FirstHashOrderNumberFound(prefix: string, n: string, suffix: string)
    requires '#' !in prefix
    requires IsOrderNumber(n)
    ensures OrderNumber(prefix + "#" + n + suffix) == Some(n)
  {
    var s := prefix + "#" + n + suffix;
    forall j | 0 <= j < |prefix| ensures !OrderNumberAt(s, j) {
      assert s[j] == prefix[j];
    }
    OrderNumberFound(prefix, n, suffix);
  }

  /** What `place_order` makes of the confirmation text: no text gives no order id; text with
      an order number gives that number; text without one raises inside the confirmation
      handler, which reports the confirmation failure. */
  function Confirmation(text: Option<string>): (r: Checkout.OrderResult)
    ensures r == Checkout.Placed(None) <==> !Present(text)
    ensures Present(text) && OrderNumber(text.value).Some? ==> r == Checkout.Placed(OrderNumber(text.value))
    ensures r.Failed? <==> Present(text) && forall i :: 0 <= i < |text.value| ==> !OrderNumberAt(text.value, i)
    ensures r.Failed? ==> r.error == Checkout.ConfirmFailure
  {
    if Present(text) then
      match OrderNumber(text.value)
      case Some(n) => Checkout.Placed(Some(n))
      case None => Checkout.Failed(Checkout.ConfirmFailure)
    else Checkout.Placed(None)
  }

  // ---------------------------------------------------------------------------
  // Checkout

  const AddressForm: Script := [
    Press("#add-new-address-popover-link"),
    Enter("#address-ui-widgets-enterAddressFullName", "full_name"),
    Enter("#address-ui-widgets-enterAddressLine1", "address_line1"),
    Enter("#address-ui-widgets-enterAddressCity", "city"),
    Enter("#address-ui-widgets-enterAddressStateOrRegion", "state"),
    Enter("#address-ui-widgets-enterAddressPostalCode", "postal_code"),
    Enter("#address-ui-widgets-enterAddressPhoneNumber", "phone"),
    Press("#address-ui-widgets-form-submit-button")
  ]

  const CardForm: Script := [
    Press("#pp-YqiDWv-126"),
    Enter("#pp-YqiDWv-16", "card_number"),
    Enter("#pp-YqiDWv-18", "name_on_card"),
    Enter("#pp-YqiDWv-21", "expiry"),
    Enter("#pp-YqiDWv-23", "cvv"),
    Press("#pp-YqiDWv-64")
  ]

  const Plan := Checkout.Plan(
    BaseUrl + "/gp/cart/view.html",
    [Click("#sc-buy-box-ptc-button")],
    AddressForm,
    CardForm,
    [Click("#submitOrderButtonId")])

  /** `payment_info.get("new_card")` is truthy. */
  predicate WantsNewCard(payment: map<string, string>) {
    "new_card" in payment && payment["new_card"] != ""
  }

  /** `place_order` on Amazon. The order is placed exactly when the cart opens, the
      address-form probe does not raise, the address form (if shown) finds its six keys, the
      card form (if a new card is asked for) finds its four, the confirmation appears, and its
      text, if any, holds an order number; the id is that number. */
  function PlaceOrder(shipping: map<string, string>, payment: map<string, string>, page: Checkout.OrderPage)
    : (r: Trace<Checkout.OrderResult>)
    ensures |r.steps| > 0 && r.steps[0] == Navigate(BaseUrl + "/gp/cart/view.html")
    ensures r.result.Placed? <==>
      && page.cartLoaded
      && page.probeError.None?
      && (page.addressFormShown ==>
            {"full_name", "address_line1", "city", "state", "postal_code", "phone"} <= shipping.Keys)
      && (WantsNewCard(payment) ==> {"card_number", "name_on_card", "expiry", "cvv"} <= payment.Keys)
      && page.confirmed
      && (Present(page.confirmationText) ==> OrderNumber(page.confirmationText.value).Some?)
    ensures r.result.Placed? ==>
      r.result.orderId == if Present(page.confirmationText) then OrderNumber(page.confirmationText.value) else None
  {
    AddressKeys();
    CardKeys();
    CompleteIffRequired(AddressForm, shipping);
    CompleteIffRequired(CardForm, payment);
    Checkout.PlaceOrder(Plan, WantsNewCard(payment), shipping, payment, page, Confirmation(page.confirmationText))
  }

  /** The address form needs exactly these six keys. */
  lemma AddressKeys()
    ensures Required(AddressForm) == {"full_name", "address_line1", "city", "state", "postal_code", "phone"}
  {
    assert AddressForm[1].key == "full_name" && AddressForm[2].key == "address_line1";
    assert AddressForm[3].key == "city" && AddressForm[4].key == "state";
    assert AddressForm[5].key == "postal_code" && AddressForm[6].key == "phone";
  }

  /** The card form needs exactly these four keys. */
  lemma CardKeys()
    ensures Required(CardForm) == {"card_number", "name_on_card", "expiry", "cvv"}
  {
    assert CardForm[1].key == "card_number" && CardForm[2].key == "name_on_card";
    assert CardForm[3].key == "expiry" && CardForm[4].key == "cvv";
  }

  /** The id of a placed order is the leftmost order number in the confirmation text, or none
      when there is no text. */
  lemma PlacedOrderId(shipping: map<string, string>, payment: map<string, string>, page: Checkout.OrderPage)
    ensures var r := PlaceOrder(shipping, payment, page).result; var t := page.confirmationText;
      r.Placed? && Present(t) ==>
        && r.orderId == OrderNumber(t.value) && r.orderId.Some? && IsOrderNumber(r.orderId.value)
        && exists i: nat :: OrderNumberAt(t.value, i) && r.orderId.value == t.value[i + 1..i + 20]
                            && forall j :: 0 <= j < i ==> !OrderNumberAt(t.value, j)
    ensures var r := PlaceOrder(shipping, payment, page).result;
      r.Placed? && !Present(page.confirmationText) ==> r.orderId.None?
  {
  }

  /** A confirmed order whose confirmation text holds no order number fails with the
      confirmation error: `group(1)` of a failed search raises inside the confirmation handler. */
  lemma UnnumberedConfirmationFails(shipping: map<string, string>, payment: map<string, string>, page: Checkout.OrderPage)
    requires page.cartLoaded && page.probeError.None? && page.confirmed
    requires page.addressFormShown ==> Complete(AddressForm, shipping)
    requires WantsNewCard(payment) ==> Complete(CardForm, payment)
    requires Present(page.confirmationText) && OrderNumber(page.confirmationText.value).None?
    ensures PlaceOrder(shipping, payment, page).result == Checkout.Failed(Checkout.ConfirmFailure)
  {
    PlayCompleteIff(AddressForm, shipping);
    PlayCompleteIff(CardForm, payment);
  }
}
