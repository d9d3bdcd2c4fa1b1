/** The Flipkart agent: its URLs, selectors and forms, the product id it cuts out of a result
    link (`pid=` up to the next `&`), and the order code it reads from the confirmation
    (`OD` followed by digits). */
module FlipkartAgent {
  import opened Wrappers
  import opened Values
  import opened Session
  import Text
  import Listing
  import Product
  import Checkout

  const BaseUrl := "https://www.flipkart.com"

  // ---------------------------------------------------------------------------
  // Login

  const LoginUrl := BaseUrl + "/account/login"

  const LoginForm: Script := [
    Enter("input[class='_2IX_2- VJZDxU']", "username"),
    Enter("input[type='password']", "password"),
    Press("button[type='submit']")
  ]

  // ---------------------------------------------------------------------------
  // Search

  const MinTag := "&p%5B%5D=facets.price_range.from%3D"
  const MaxTag := "&p%5B%5D=facets.price_range.to%3D"

  const SearchScheme := Listing.Scheme(BaseUrl + "/search?q=", MinTag, MaxTag)

  lemma SearchSchemeWellFormed()
    ensures Listing.WellFormed(SearchScheme)
  {
    assert SearchScheme.minTag[28] != SearchScheme.maxTag[28];
  }

  /** What the in-page script reads from one result tile. */
  datatype Tile = Tile(title: Option<string>, price: Option<string>, link: Option<string>,
                       rating: Option<string>, image: Option<string>)

  /** The text after a `pid=` is cut at its first `pid=` and then at its first `&`: what is
      left holds neither, and what follows it is empty or starts with one of them. */
  lemma IdCut(tail: string)
    ensures var id := Text.Before(Text.Before(tail, "pid="), "&");
      && id <= tail && '&' !in id
      && (forall j :: 0 <= j < |id| ==> !Text.OccursAt(tail, "pid=", j))
      && (|id| < |tail| ==> tail[|id|] == '&' || Text.OccursAt(tail, "pid=", |id|))
  {
    var a := Text.Before(tail, "pid=");
    var id := Text.Before(a, "&");
    forall j | 0 <= j < |id| ensures id[j] != '&' {
      assert !Text.OccursAt(a, "&", j);
      assert a[j..j + 1] == [id[j]];
    }
    if |id| < |a| {
      assert Text.OccursAt(a, "&", |id|);
      assert a[|id|..|id| + 1] == [a[|id|]];
    }
  }

  /** `link.split("pid=")[1]?.split("&")[0]`: the text after the first `pid=`, up to the next
      `pid=` or `&`; `undefined` when the link has no `pid=`. */
  function ListingId(link: string): (r: Option<string>)
    ensures r.None? <==> forall j :: 0 <= j <= |link| ==> !Text.OccursAt(link, "pid=", j)
    ensures r.Some? ==>
      && Text.IndexOf(link, "pid=").Some?
      && var i := Text.IndexOf(link, "pid=").value; var tail := link[i + 4..];
         && r.value <= tail && '&' !in r.value
         && (forall j :: 0 <= j < |r.value| ==> !Text.OccursAt(tail, "pid=", j))
         && (|r.value| < |tail| ==> tail[|r.value|] == '&' || Text.OccursAt(tail, "pid=", |r.value|))
  {
    match Text.IndexOf(link, "pid=")
    case None => None
    case Some(i) =>
      IdCut(link[i + 4..]);
      Some(Text.Before(Text.Before(link[i + 4..], "pid="), "&"))
  }

  /** The first `pid=` in the link is the one after the prefix, when none starts earlier. */
  lemma FirstPid(prefix: string, tail: string)
    requires forall j :: 0 <= j < |prefix| ==> !Text.OccursAt(prefix + "pid=", "pid=", j)
    ensures Text.IndexOf(prefix + "pid=" + tail, "pid=") == Some(|prefix|)
  {
    var head := prefix + "pid=";
    var link := head + tail;
    var i := |prefix|;
    assert link[..|head|] == head;
    forall j | 0 <= j < i ensures !Text.OccursAt(link, "pid=", j) {
      assert !Text.OccursAt(head, "pid=", j);
      assert link[j..j + 4] == head[j..j + 4];
    }
    assert link[i..i + 4] == "pid=";
    assert Text.OccursAt(link, "pid=", i);
  }

  /** No `pid=` starts inside an id free of `=` that is followed by `&` or the end. */
  lemma NoPidInId(id: string, rest: string)
    requires '&' !in id && '=' !in id
    requires rest == [] || rest[0] == '&'
    ensures forall j :: 0 <= j < |id| ==> !Text.OccursAt(id + rest, "pid=", j)
  {
    var tail := id + rest;
    forall j | 0 <= j < |id| ensures !Text.OccursAt(tail, "pid=", j) {
      if j + 3 < |id| {
        assert tail[j + 3] == id[j + 3];
      } else if rest != [] && j + 4 <= |tail| {
        assert tail[|id|] == '&';
        assert tail[j..j + 4][|id| - j] == tail[|id|];
      }
    }
  }

  /** The id a link carries is read back exactly, when no `pid=` starts before it, the id holds
      neither `&` nor `=`, and what follows the id is another parameter. */
  lemma ListingIdRoundTrip(prefix: string, id: string, rest: string)
    requires forall j :: 0 <= j < |prefix| ==> !Text.OccursAt(prefix + "pid=", "pid=", j)
    requires '&' !in id && '=' !in id
    requires rest == [] || rest[0] == '&'
    ensures ListingId(prefix + "pid=" + id + rest) == Some(id)
  {
    var link := prefix + "pid=" + id + rest;
    assert link == prefix + "pid=" + (id + rest);
    FirstPid(prefix, id + rest);
    var tail := link[|prefix| + 4..];
    assert tail == id + rest;
    NoPidInId(id, rest);
    var cut := Text.Before(tail, "pid=");
    assert id <= cut;
    var more := cut[|id|..];
    assert cut == id + more;
    assert more == [] || more[0] == '&' by {
      if more != [] {
        assert more[0] == tail[|id|] == rest[0];
      }
    }
    Listing.BeforeAmpersand(id, more);
  }

  /** The keep rule: a tile is kept iff its title, price text and link are all non-empty. Its
      id is what the link carries, possibly nothing. */
  function Convert(tile: Tile): (r: Option<Listing.Summary>)
    ensures r.Some? <==> Present(tile.title) && Present(tile.price) && Present(tile.link)
    ensures r.Some? ==> r.value.id == ListingId(tile.link.value)
                        && Some(r.value.title) == tile.title && Some(r.value.price) == tile.price
  {
    if Present(tile.title) && Present(tile.price) && Present(tile.link) then
      Some(Listing.Summary(ListingId(tile.link.value), tile.title.value, tile.price.value,
                           OrNull(tile.rating), OrNull(tile.image)))
    else None
  }

  method Search(query: string, filters: Option<map<string, Scalar>>, page: Listing.SearchPage<Tile>)
    returns (r: Trace<seq<Listing.Summary>>)
    ensures r.steps == [Navigate(BaseUrl + "/search?q=" + query
                                  + Listing.Param(MinTag, Lookup(filters, "min_price"))
                                  + Listing.Param(MaxTag, Lookup(filters, "max_price")))]
    ensures r.result == if page.Loaded? then Listing.Kept(page.items, Convert) else []
  {
    r := Listing.Search(SearchScheme, query, filters, page, Convert);
  }

  /** A kept tile whose link has no `pid=` still yields a result, one without an id. */
  lemma TileWithoutPid(title: string, price: string, link: string)
    requires title != "" && price != "" && link != ""
    requires forall j :: 0 <= j <= |link| ==> !Text.OccursAt(link, "pid=", j)
    ensures Listing.Kept([Tile(Some(title), Some(price), Some(link), None, None)], Convert)
         == [Listing.Summary(None, title, price, None, None)]
  {
    var items := [Tile(Some(title), Some(price), Some(link), None, None)];
    assert items[..0] == [];
  }

  // ---------------------------------------------------------------------------
  // Product page and cart

  function ProductUrl(productId: string): string { BaseUrl + "/p/" + productId }

  function ProductDetails(productId: string, page: Option<map<string, Product.PageValue>>): (r: Trace<map<string, Product.PageValue>>)
    ensures r.steps == [Navigate(BaseUrl + "/p/" + productId)]
    ensures page.Some? ==> "id" in r.result && r.result["id"] == Product.Text(productId)
    ensures page.None? ==> r.result == map[]
  {
    Product.Details(ProductUrl(productId), productId, page)
  }

  const AddToCartButton := "button._2KpZ6l._2U9uOA._3v1-ww"

  /** Opens the product page and clicks add-to-cart; the quantity is accepted but not used.
      Succeeds iff the cart badge appears. */
  function AddToCart(productId: string, quantity: int, page: Product.CartPage): (r: Trace<bool>)
    ensures r.steps == if page.loaded then [Navigate(BaseUrl + "/p/" + productId), Click(AddToCartButton)]
                       else [Navigate(BaseUrl + "/p/" + productId)]
    ensures r.result <==> page.loaded && page.confirmed
  {
    var visit := [Navigate(ProductUrl(productId))];
    if !page.loaded then Trace(visit, false)
    else Trace(visit + [Click(AddToCartButton)], page.confirmed)
  }

  /** The requested quantity makes no difference to what is done or returned. */
  lemma QuantityIgnored(productId: string, q1: int, q2: int, page: Product.CartPage)
    ensures AddToCart(productId, q1, page) == AddToCart(productId, q2, page)
  {
  }

  // ---------------------------------------------------------------------------
  // Order code

  /** `OD\d+` matches at index `i`. */
  predicate OrderCodeAt(s: string, i: nat) {
    i + 3 <= |s| && s[i] == 'O' && s[i + 1] == 'D' && Text.IsDigit(s[i + 2])
  }

  /** Where the leftmost match of `OD\d+` starts. */
  function OrderCodeStart(text: string): (r: Option<nat>)
    ensures r.Some? ==> OrderCodeAt(text, r.value) && forall j :: 0 <= j < r.value ==> !OrderCodeAt(text, j)
    ensures r.None? <==> forall i :: 0 <= i < |text| ==> !OrderCodeAt(text, i)
  {
    var p := (i: nat) => OrderCodeAt(text, i);
    assert forall i: nat :: p(i) == OrderCodeAt(text, i);
    Text.FirstWhere(p, 0, |text|)
  }

  /** `re.search(r"OD\d+", text).group(0)`: the leftmost `OD` with the whole digit run after it. */
  function OrderCode(text: string): (r: Option<string>)
    ensures r.Some? ==> |r.value| >= 3 && r.value[..2] == "OD" && Text.AllDigits(r.value[2..])
    ensures r.Some? <==> OrderCodeStart(text).Some?
    ensures r.Some? ==> OrderCodeStart(text).Some? && var i := OrderCodeStart(text).value;
      r.value <= text[i..] && (i + |r.value| < |text| ==> !Text.IsDigit(text[i + |r.value|]))
    ensures r.None? <==> forall i :: 0 <= i < |text| ==> !OrderCodeAt(text, i)
  {
    match OrderCodeStart(text)
    case Some(i) =>
      var n := Text.DigitRun(text, i + 2);
      var code := text[i..i + 2 + n];
      assert code[2..] == text[i + 2..i + 2 + n];
      Some(code)
    case None => None
  }

  /** With no match starting in the prefix, the first match is the `OD` after it. */
  lemma FirstOrderCode(prefix: string, digits: string, suffix: string)
    requires forall j :: 0 <= j < |prefix| ==> !OrderCodeAt(prefix + "OD" + digits + suffix, j)
    requires digits != [] && Text.AllDigits(digits)
    ensures OrderCodeStart(prefix + "OD" + digits + suffix) == Some(|prefix|)
  {
    var s := prefix + "OD" + digits + suffix;
    var i := |prefix|;
    assert s[i] == 'O' && s[i + 1] == 'D' && s[i + 2] == digits[0];
    assert OrderCodeAt(s, i);
  }

  /** An order code placed in a text is found when no match starts before it and no digit
      follows it. */
  lemma OrderCodeFound(prefix: string, digits: string, suffix: string)
    requires forall j :: 0 <= j < |prefix| ==> !OrderCodeAt(prefix + "OD" + digits + suffix, j)
    requires digits != [] && Text.AllDigits(digits)
    requires suffix == [] || !Text.IsDigit(suffix[0])
    ensures OrderCode(prefix + "OD" + digits + suffix) == Some("OD" + digits)
  {
    var s := prefix + "OD" + digits + suffix;
    var i := |prefix|;
    FirstOrderCode(prefix, digits, suffix);
    assert s == prefix + ("OD" + digits) + suffix;
    forall k | i + 2 <= k < i + 2 + |digits| ensures Text.IsDigit(s[k]) {
      assert s[k] == digits[k - i - 2];
    }
    if suffix != [] {
      assert s[i + 2 + |digits|] == suffix[0];
    }
    Text.DigitRunExact(s, i + 2, |digits|);
    assert s[i..i + 2 + |digits|] == "OD" + digits;
  }

  /** In particular, when no `O` comes before it. */
  lemma FirstOOrderCodeFound(prefix: string, digits: string, suffix: string)
    requires 'O' !in prefix
    requires digits != [] && Text.AllDigits(digits)
    requires suffix == [] || !Text.IsDigit(suffix[0])
    ensures OrderCode(prefix + "OD" + digits + suffix) == Some("OD" + digits)
  {
    var s := prefix + "OD" + digits + suffix;
    forall j | 0 <= j < |prefix| ensures !OrderCodeAt(s, j) {
      assert s[j] == prefix[j];
    }
    OrderCodeFound(prefix, digits, suffix);
  }

  /** What `place_order` makes of the confirmation text: no text gives no order id; text with
      an order code gives that code; text without one fails with the confirmation error. */
  function Confirmation(text: Option<string>): (r: Checkout.OrderResult)
    ensures r == Checkout.Placed(None) <==> !Present(text)
    ensures Present(text) && OrderCode(text.value).Some? ==> r == Checkout.Placed(OrderCode(text.value))
    ensures r.Failed? <==> Present(text) && forall i :: 0 <= i < |text.value| ==> !OrderCodeAt(text.value, i)
    ensures r.Failed? ==> r.error == Checkout.ConfirmFailure
  {
    if Present(text) then
      match OrderCode(text.value)
      case Some(c) => Checkout.Placed(Some(c))
      case None => Checkout.Failed(Checkout.ConfirmFailure)
    else Checkout.Placed(None)
  }

  // ---------------------------------------------------------------------------
  // Checkout

  const AddressForm: Script := [
    Press("button._2KpZ6l._1uR9yB._3dESVI"),
    Enter("input[name='name']", "full_name"),
    Enter("input[name='phone']", "phone"),
    Enter("input[name='pincode']", "postal_code"),
    Enter("input[name='addressLine1']", "address_line1"),
    Enter("input[name='addressLine2']", "address_line2"),
    Enter("input[name='city']", "city"),
    Enter("input[name='state']", "state"),
    Press("button._2KpZ6l._1JDhFS._1o0c4q")
  ]

  const CardForm: Script := [
    Press("div._3AWRsL"),
    Enter("input[name='cardNumber']", "card_number"),
    Enter("input[name='expiryMonth']", "expiry_month"),
    Enter("input[name='expiryYear']", "expiry_year"),
    Enter("input[name='cvv']", "cvv"),
    Press("button._2KpZ6l._1seccl._3AWRsL")
  ]

  /** The same button proceeds from the cart and submits the order. */
  const OrderButton := "button._2KpZ6l._2ObVJD._3AWRsL"

  const Plan := Checkout.Plan(BaseUrl + "/viewcart", [Click(OrderButton)], AddressForm, CardForm, [Click(OrderButton)])

  /** `payment_info.get("method") == "card"`. */
  predicate PaysByCard(payment: map<string, string>) {
    "method" in payment && payment["method"] == "card"
  }

  /** `place_order` on Flipkart. The order is placed exactly when the cart opens, the
      address-form probe does not raise, the address form (if shown) finds its seven keys, the
      card form (if paying by card) finds its four, the confirmation appears, and its text, if
      any, holds an order code; the id is that code. */
  function PlaceOrder(shipping: map<string, string>, payment: map<string, string>, page: Checkout.OrderPage)
    : (r: Trace<Checkout.OrderResult>)
    ensures |r.steps| > 0 && r.steps[0] == Navigate(BaseUrl + "/viewcart")
    ensures r.result.Placed? <==>
      && page.cartLoaded
      && page.probeError.None?
      && (page.addressFormShown ==>
            {"full_name", "phone", "postal_code", "address_line1", "address_line2", "city", "state"} <= shipping.Keys)
      && (PaysByCard(payment) ==> {"card_number", "expiry_month", "expiry_year", "cvv"} <= payment.Keys)
      && page.confirmed
      && (Present(page.confirmationText) ==> OrderCode(page.confirmationText.value).Some?)
    ensures r.result.Placed? ==>
      r.result.orderId == if Present(page.confirmationText) then OrderCode(page.confirmationText.value) else None
  {
    AddressKeys();
    CardKeys();
    CompleteIffRequired(AddressForm, shipping);
    CompleteIffRequired(CardForm, payment);
    Checkout.PlaceOrder(Plan, PaysByCard(payment), shipping, payment, page, Confirmation(page.confirmationText))
  }

  /** The address form needs all seven keys, the second address line included. */
  lemma AddressKeys()
    ensures Required(AddressForm) == {"full_name", "phone", "postal_code", "address_line1", "address_line2", "city", "state"}
  {
    assert AddressForm[1].key == "full_name" && AddressForm[2].key == "phone";
    assert AddressForm[3].key == "postal_code" && AddressForm[4].key == "address_line1";
    assert AddressForm[5].key == "address_line2" && AddressForm[6].key == "city";
    assert AddressForm[7].key == "state";
  }

  /** The card form needs these four keys. */
  lemma CardKeys()
    ensures Required(CardForm) == {"card_number", "expiry_month", "expiry_year", "cvv"}
  {
    assert CardForm[1].key == "card_number" && CardForm[2].key == "expiry_month";
    assert CardForm[3].key == "expiry_year" && CardForm[4].key == "cvv";
  }

  /** The id of a placed order is the leftmost `OD` code in the confirmation text, with its
      whole digit run, or none when there is no text. */
  lemma PlacedOrderId(shipping: map<string, string>, payment: map<string, string>, page: Checkout.OrderPage)
    ensures var r := PlaceOrder(shipping, payment, page).result; var t := page.confirmationText;
      r.Placed? && Present(t) ==>
        && r.orderId == OrderCode(t.value) && r.orderId.Some? && OrderCodeStart(t.value).Some?
        && var i, id := OrderCodeStart(t.value).value, r.orderId.value;
           && |id| >= 3 && id[..2] == "OD" && Text.AllDigits(id[2..]) && id <= t.value[i..]
           && (i + |id| < |t.value| ==> !Text.IsDigit(t.value[i + |id|]))
    ensures var r := PlaceOrder(shipping, payment, page).result;
      r.Placed? && !Present(page.confirmationText) ==> r.orderId.None?
  {
  }

  /** A confirmed order whose confirmation text holds no order code fails with the
      confirmation error: `group(0)` of a failed search raises inside the confirmation handler. */
  lemma UncodedConfirmationFails(shipping: map<string, string>, payment: map<string, string>, page: Checkout.OrderPage)
    requires page.cartLoaded && page.probeError.None? && page.confirmed
    requires page.addressFormShown ==> Complete(AddressForm, shipping)
    requires PaysByCard(payment) ==> Complete(CardForm, payment)
    requires Present(page.confirmationText) && OrderCode(page.confirmationText.value).None?
    ensures PlaceOrder(shipping, payment, page).result == Checkout.Failed(Checkout.ConfirmFailure)
  {
    PlayCompleteIff(AddressForm, shipping);
    PlayCompleteIff(CardForm, payment);
  }
}
