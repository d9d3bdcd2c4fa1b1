/** The AliExpress agent: its URLs, selectors and forms, the product id it reads from an item
    link (the digits before `.html`), the case-insensitive success test after adding to the
    cart, and the stripped order number it returns. */
module AliExpressAgent {
  import opened Wrappers
  import opened Values
  import opened Session
  import Text
  import Listing
  import Product
  import Checkout

  const BaseUrl := "https://www.aliexpress.com"

  // ---------------------------------------------------------------------------
  // Login

  const LoginUrl := BaseUrl + "/login.html"

  const LoginForm: Script := [
    Enter("#fm-login-id", "username"),
    Enter("#fm-login-password", "password"),
    Press("button.fm-button")
  ]

  // ---------------------------------------------------------------------------
  // Search

  const SearchScheme := Listing.Scheme(BaseUrl + "/wholesale?SearchText=", "&minPrice=", "&maxPrice=")

  lemma SearchSchemeWellFormed()
    ensures Listing.WellFormed(SearchScheme)
  {
    assert SearchScheme.minTag[2] != SearchScheme.maxTag[2];
  }

  /** `\d+\.html` matches at index `i`: a digit starts there and the digit run is followed by
      `.html` (the run cannot stop early, since `.` is not a digit). */
  predicate ProductIdAt(href: string, i: nat) {
    i < |href| && Text.IsDigit(href[i]) && Text.OccursAt(href, ".html", i + Text.DigitRun(href, i))
  }

  /** Where the leftmost match of `\d+\.html` starts. */
  function ProductIdStart(href: string): (r: Option<nat>)
    ensures r.Some? ==> ProductIdAt(href, r.value) && forall j :: 0 <= j < r.value ==> !ProductIdAt(href, j)
    ensures r.None? <==> forall i :: 0 <= i < |href| ==> !ProductIdAt(href, i)
  {
    var p := (i: nat) => ProductIdAt(href, i);
    assert forall i: nat :: p(i) == ProductIdAt(href, i);
    Text.FirstWhere(p, 0, |href|)
  }

  /** `href.match(/\d+\.html/)?.[0]?.replace('.html', '')`: the digits of the leftmost match. */
  function ProductId(href: string): (r: Option<string>)
    ensures r.Some? <==> ProductIdStart(href).Some?
    ensures r.Some? ==> |r.value| > 0 && Text.AllDigits(r.value)
    ensures r.Some? ==> ProductIdStart(href).Some? && var i := ProductIdStart(href).value;
      r.value + ".html" <= href[i..]
  {
    match ProductIdStart(href)
    case Some(i) =>
      var n := Text.DigitRun(href, i);
      assert href[i..][..n + 5] == href[i..i + n] + href[i + n..i + n + 5];
      Some(href[i..i + n])
    case None => None
  }

  /** Digits followed by `.html` match where the digits start, and the run is exactly them. */
  lemma MatchAtSeam(prefix: string, id: string, tail: string)
    requires id != [] && Text.AllDigits(id)
    requires ".html" <= tail
    ensures ProductIdAt(prefix + id + tail, |prefix|)
    ensures Text.DigitRun(prefix + id + tail, |prefix|) == |id|
  {
    var s := prefix + id + tail;
    var i := |prefix|;
    forall k | i <= k < i + |id| ensures Text.IsDigit(s[k]) {
      assert s[k] == id[k - i];
    }
    assert s[i + |id|] == tail[0];
    Text.DigitRunExact(s, i, |id|);
    assert s[i + |id|..i + |id| + 5] == tail[..5];
    assert s[i] == id[0];
  }

  /** With no digit before the id, the leftmost match starts at the id. */
  lemma FirstProductId(prefix: string, id: string, tail: string)
    requires forall k :: 0 <= k < |prefix| ==> !Text.IsDigit(prefix[k])
    requires id != [] && Text.AllDigits(id)
    requires ".html" <= tail
    ensures ProductIdStart(prefix + id + tail) == Some(|prefix|)
  {
    var s := prefix + id + tail;
    MatchAtSeam(prefix, id, tail);
    forall j | 0 <= j < |prefix| ensures !ProductIdAt(s, j) {
      assert s[j] == prefix[j];
    }
  }

  /** The id in an item link is read back exactly when no digit comes before it. */
  lemma ProductIdRoundTrip(prefix: string, id: string, suffix: string)
    requires forall k :: 0 <= k < |prefix| ==> !Text.IsDigit(prefix[k])
    requires id != [] && Text.AllDigits(id)
    ensures ProductId(prefix + id + ".html" + suffix) == Some(id)
  {
    var tail := ".html" + suffix;
    var s := prefix + id + tail;
    assert s == prefix + id + ".html" + suffix;
    MatchAtSeam(prefix, id, tail);
    FirstProductId(prefix, id, tail);
    var i := |prefix|;
    assert s[i..i + |id|] == id;
  }

  /** The text of the gallery card an item link sits in. */
  datatype CardText = CardText(title: Option<string>, price: Option<string>, rating: Option<string>, image: Option<string>)

  /** One item link: its `href`, and the card around it if it has one. */
  datatype Anchor = Anchor(href: string, card: Option<CardText>)

  /** The keep rule: a link is kept iff it sits in a card, the card has a non-empty title and
      price text, and the link holds a product id. */
  function Convert(a: Anchor): (r: Option<Listing.Summary>)
    ensures r.Some? <==> a.card.Some? && Present(a.card.value.title) && Present(a.card.value.price)
                         && ProductId(a.href).Some?
    ensures r.Some? ==> r.value.id == ProductId(a.href) && Some(r.value.title) == a.card.value.title
                        && Some(r.value.price) == a.card.value.price
  {
    match a.card
    case None => None
    case Some(card) =>
      var id := ProductId(a.href);
      if Present(card.title) && Present(card.price) && id.Some? then
        Some(Listing.Summary(id, card.title.value, card.price.value, OrNull(card.rating), OrNull(card.image)))
      else None
  }

  method Search(query: string, filters: Option<map<string, Scalar>>, page: Listing.SearchPage<Anchor>)
    returns (r: Trace<seq<Listing.Summary>>)
    ensures r.steps == [Navigate(BaseUrl + "/wholesale?SearchText=" + query
                                  + Listing.Param("&minPrice=", Lookup(filters, "min_price"))
                                  + Listing.Param("&maxPrice=", Lookup(filters, "max_price")))]
    ensures r.result == if page.Loaded? then Listing.Kept(page.items, Convert) else []
  {
    r := Listing.Search(SearchScheme, query, filters, page, Convert);
  }

  /** Every search result carries a non-empty all-digit id. */
  lemma SearchIdsAreDigits(items: seq<Anchor>)
    ensures forall s :: s in Listing.Kept(items, Convert) ==>
      s.id.Some? && |s.id.value| > 0 && Text.AllDigits(s.id.value)
  {
    Listing.KeptSpec(items, Convert);
    var r, src := Listing.Kept(items, Convert), Listing.Sources(items, Convert);
    forall s | s in r ensures s.id.Some? && |s.id.value| > 0 && Text.AllDigits(s.id.value) {
      var k :| 0 <= k < |r| && r[k] == s;
      assert Convert(items[src[k]]) == Some(s);
    }
  }

  // ---------------------------------------------------------------------------
  // Product page and cart

  function ProductUrl(productId: string): string { BaseUrl + "/item/" + productId + ".html" }

  /** The product URL built from an id and the id read back from that URL agree. */
  lemma ProductUrlCarriesId(productId: string)
    requires productId != [] && Text.AllDigits(productId)
    ensures ProductId(ProductUrl(productId)) == Some(productId)
  {
    var prefix := BaseUrl + "/item/";
    assert ProductUrl(productId) == prefix + productId + ".html" + "";
    ProductIdRoundTrip(prefix, productId, "");
  }

  function ProductDetails(productId: string, page: Option<map<string, Product.PageValue>>): (r: Trace<map<string, Product.PageValue>>)
    ensures r.steps == [Navigate(BaseUrl + "/item/" + productId + ".html")]
    ensures page.Some? ==> "id" in r.result && r.result["id"] == Product.Text(productId)
    ensures page.None? ==> r.result == map[]
  {
    Product.Details(ProductUrl(productId), productId, page)
  }

  const QuantityInput := ".next-input input[type='number']"
  const AddToCartButton := ".add-to-cart-button"

  /** `"successfully" in (text or "").lower()`. */
  predicate SaysSuccess(text: Option<string>) {
    Text.Contains(Text.Lower(if text.Some? then text.value else ""), "successfully")
  }

  /** Opens the product page, types the quantity only when more than one is wanted, clicks
      add-to-cart, and succeeds iff the dialog appears and says "successfully" in any case. */
  function AddToCart(productId: string, quantity: int, page: Product.CartPage): (r: Trace<bool>)
    ensures |r.steps| > 0 && r.steps[0] == Navigate(BaseUrl + "/item/" + productId + ".html")
    ensures r.steps == if !page.loaded then [Navigate(BaseUrl + "/item/" + productId + ".html")]
                       else [Navigate(BaseUrl + "/item/" + productId + ".html")]
                            + (if quantity > 1 then [Type(QuantityInput, Text.IntToString(quantity))] else [])
                            + [Click(AddToCartButton)]
    ensures r.result <==> page.loaded && page.confirmed && SaysSuccess(page.dialogText)
    ensures Type(QuantityInput, Text.IntToString(quantity)) in r.steps <==> page.loaded && quantity > 1
  {
    var visit := [Navigate(ProductUrl(productId))];
    if !page.loaded then Trace(visit, false)
    else
      var typed := if quantity > 1 then [Type(QuantityInput, Text.IntToString(quantity))] else [];
      Trace(visit + typed + [Click(AddToCartButton)], page.confirmed && SaysSuccess(page.dialogText))
  }

  /** No dialog text means no success, and the test does not depend on letter case. */
  lemma SuccessTest(t1: string, t2: string)
    requires |t1| == |t2|
    requires forall i :: 0 <= i < |t1| ==> Text.LowerChar(t1[i]) == Text.LowerChar(t2[i])
    ensures !SaysSuccess(None)
    ensures SaysSuccess(Some(t1)) <==> SaysSuccess(Some(t2))
  {
    Text.LowerCaseInsensitive(t1, t2);
  }

  /** A dialog reading "Added Successfully" (any case) reports success. */
  lemma SuccessWording(prefix: string, suffix: string)
    ensures SaysSuccess(Some(prefix + "SUCCESSFULLY" + suffix))
  {
    var t := prefix + "SUCCESSFULLY" + suffix;
    var l := Text.Lower(t);
    var i := |prefix|;
    forall k | 0 <= k < 12 ensures l[i + k] == "successfully"[k] {
      assert t[i + k] == "SUCCESSFULLY"[k];
      assert l[i + k] == Text.LowerChar("SUCCESSFULLY"[k]);
    }
    assert l[i..i + 12] == "successfully";
    Text.ContainsAt(l, "successfully", i);
  }

  // ---------------------------------------------------------------------------
  // Checkout

  /** What `place_order` makes of the order-number text: the text without surrounding
      whitespace, or no id when there is no text. It never fails. */
  function Confirmation(text: Option<string>): (r: Checkout.OrderResult)
    ensures r.Placed?
    ensures r.orderId.None? <==> !Present(text)
    ensures Present(text) ==> r == Checkout.Placed(Some(Text.Strip(text.value)))
    ensures r.orderId.Some? ==> Text.Strip(r.orderId.value) == r.orderId.value
    ensures r.orderId.Some? ==> (r.orderId.value == "" <==> Text.AllSpace(text.value))
  {
    if Present(text) then
      Text.StripIdempotent(text.value);
      Text.StripEmptyIff(text.value);
      Checkout.Placed(Some(Text.Strip(text.value)))
    else Checkout.Placed(None)
  }

  const AddressForm: Script := [
    Enter("input[name='contactPerson']", "full_name"),
    Enter("input[name='address']", "address_line1"),
    EnterOr("input[name='address2']", "address_line2", ""),
    Enter("input[name='city']", "city"),
    Enter("input[name='province']", "state"),
    Enter("input[name='zip']", "postal_code"),
    Enter("input[name='mobileNo']", "phone"),
    Press(".save-address-button")
  ]

  const CardForm: Script := [
    Press(".credit-card-option"),
    Enter("input[name='cardNumber']", "card_number"),
    Enter("input[name='cardHolder']", "name_on_card"),
    Enter("input[name='expireDate']", "expiry"),
    Enter("input[name='cvv']", "cvv")
  ]

  const Plan := Checkout.Plan(
    BaseUrl + "/shopcart/list",
    [Click(".select-all-items input"), Click(".buy-now")],
    AddressForm,
    CardForm,
    [Click(".place-order-button")])

  /** `payment_info.get("method") == "card"`. */
  predicate PaysByCard(payment: map<string, string>) {
    "method" in payment && payment["method"] == "card"
  }

  /** `place_order` on AliExpress. The order is placed exactly when the cart opens, the
      address-form probe does not raise, the address form (if shown) finds its six required
      keys, the card form (if paying by card) finds its four, and the confirmation appears; the
      id is the order-number text stripped. */
  function PlaceOrder(shipping: map<string, string>, payment: map<string, string>, page: Checkout.OrderPage)
    : (r: Trace<Checkout.OrderResult>)
    ensures |r.steps| > 0 && r.steps[0] == Navigate(BaseUrl + "/shopcart/list")
    ensures r.result.Placed? <==>
      && page.cartLoaded
      && page.probeError.None?
      && (page.addressFormShown ==>
            {"full_name", "address_line1", "city", "state", "postal_code", "phone"} <= shipping.Keys)
      && (PaysByCard(payment) ==> {"card_number", "name_on_card", "expiry", "cvv"} <= payment.Keys)
      && page.confirmed
    ensures r.result.Placed? ==>
      r.result.orderId == if Present(page.confirmationText) then Some(Text.Strip(page.confirmationText.value)) else None
  {
    AddressKeys();
    CardKeys();
    CompleteIffRequired(AddressForm, shipping);
    CompleteIffRequired(CardForm, payment);
    Checkout.PlaceOrder(Plan, PaysByCard(payment), shipping, payment, page, Confirmation(page.confirmationText))
  }

  /** The second address line is optional: the form needs the other six keys only. */
  lemma AddressKeys()
    ensures Required(AddressForm) == {"full_name", "address_line1", "city", "state", "postal_code", "phone"}
  {
    assert AddressForm[0].key == "full_name" && AddressForm[1].key == "address_line1";
    assert AddressForm[3].key == "city" && AddressForm[4].key == "state";
    assert AddressForm[5].key == "postal_code" && AddressForm[6].key == "phone";
  }

  /** The card form needs exactly these four keys. */
  lemma CardKeys()
    ensures Required(CardForm) == {"card_number", "name_on_card", "expiry", "cvv"}
  {
    assert CardForm[1].key == "card_number" && CardForm[2].key == "name_on_card";
    assert CardForm[3].key == "expiry" && CardForm[4].key == "cvv";
  }

  /** Without a second address line, the form types an empty one. */
  lemma MissingLineTwoTypesEmpty(shipping: map<string, string>)
    requires Complete(AddressForm, shipping)
    requires "address_line2" !in shipping
    ensures Play(AddressForm, shipping).steps[2] == Type("input[name='address2']", "")
  {
    PlayCompleteIff(AddressForm, shipping);
    assert Performs(Play(AddressForm, shipping).steps[2], AddressForm[2], shipping);
  }

  /** Once the page confirms, the order is placed whatever the order-number text says; its id
      is that text without surrounding whitespace, empty exactly when the text is blank. */
  lemma ConfirmedIsPlaced(shipping: map<string, string>, payment: map<string, string>, page: Checkout.OrderPage)
    requires page.cartLoaded && page.probeError.None? && page.confirmed
    requires page.addressFormShown ==> Complete(AddressForm, shipping)
    requires PaysByCard(payment) ==> Complete(CardForm, payment)
    ensures var r := PlaceOrder(shipping, payment, page).result; var t := page.confirmationText;
      && r.Placed?
      && (Present(t) ==> r.orderId == Some(Text.Strip(t.value)) && (r.orderId.value == "" <==> Text.AllSpace(t.value)))
      && (!Present(t) ==> r.orderId.None?)
  {
    AddressKeys();
    CardKeys();
    CompleteIffRequired(AddressForm, shipping);
    CompleteIffRequired(CardForm, payment);
  }
}
