# E-commerce agents, modelled in Dafny

The system drives three shopping sites (Amazon, Flipkart, AliExpress) through a headless
browser, behind an HTTP API (FastAPI). An `AgentFactory` hands out one agent per platform,
created and launched on first request and reused afterwards. Each agent can log in, search,
read a product page, add to the cart and place an order.

This project models that core:

- The factory is a class over a `map<string, Agent>`, with its get-or-create and close-all
  operations proved against their full effect on the cache and on the agents, and with the
  invariant that every cached agent has a launched, unclosed browser.
- An agent is a class holding its platform and its `logged_in`, launched and closed state.
- Each platform's string logic is a set of pure functions, each fully specified and paired
  with a lemma that reads its output back or characterises it:
  - the search URL, built by appends in a loop-free method and read back by a parser;
  - the ids cut out of result links, read back from links built around an id (and, on
    AliExpress, from the product URL);
  - the order ids read from confirmation text, read back from any text in which no earlier
    match starts;
  - the keep rule for search results.
  The product, cart and login URLs are concatenations of constants and the id; the contracts
  of the operations that open them state them.
- The browser is not modelled. What it reports (page loaded, element appeared, text read) is an
  input record. What an operation asks of it (navigate, click, type) is returned as a list of
  steps beside the result.
- Form filling is a script of clicks and typed values read from a mapping. A missing key stops
  the script with Python's `KeyError`, which the order flow turns into its error text.

Files: `text.dfy` (string primitives), `values.dfy` (filter values and truthiness),
`session.dfy` (steps and form scripts), `listing.dfy` (search), `product.dfy`,
`checkout.dfy` (the order flow), `amazon.dfy`, `flipkart.dfy`, `aliexpress.dfy`,
`agents.dfy` (the agent class and login), `registry.dfy` (the factory), `wrappers.dfy`.

## Model

| member | source | states |
|---|---|---|
| Registry.AgentFactory.constructor | agents/agent_factory.py:7-8 | The cache starts empty and satisfies the invariant: keys are supported names, each holding an agent of that platform whose browser launched and is not closed. |
| Registry.AgentFactory.GetAgent | agents/agent_factory.py:10-28 | The name is lower-cased. A cached name returns the cached agent and constructs nothing. An unsupported name fails with "Unsupported platform: " + name and changes nothing. Otherwise exactly one agent is constructed; it is cached only if its browser launched, and then it is fresh, of the named platform, launched, not closed and not logged in. Every agent returned, cached or new, has a live browser. The invariant is kept. |
| Registry.AgentFactory.CloseAll | agents/agent_factory.py:30-38 | Every cached agent is closed exactly when its close does not raise, whatever the other agents' closes do. Nothing else about any agent changes. The cache ends empty. |
| Registry.OneAgentPerPlatform | agents/agent_factory.py:15-16 | Under the invariant, two names never share an agent, and their agents have different platforms. |
| Registry.SameAgentWhateverTheCase | agents/agent_factory.py:13-16 | "Amazon" and then "AMAZON" yield the same Amazon agent, and only one agent is constructed. |
| Registry.FactoryAgentLogsIn | agents/agent_factory.py:15-28 | An agent the factory returns logs in through the platform's login flow, never through the no-browser failure; a failed request yields no login. |
| Registry.FreshAgentAfterCloseAll | agents/agent_factory.py:30-38 | After close_all, a request for a platform gets a different agent from the one cached before. |
| Agents.FromName | agents/agent_factory.py:16-23 | A name selects a platform exactly when it is one of the three supported names, and that platform's name is the given name. |
| Agents.NameRoundTrip | agents/agent_factory.py:16-21 | Names and platforms correspond one to one. |
| Agents.Agent.constructor | agents/ecommerce_agent.py:9-14 | A new agent has its platform, no browser and is not logged in. |
| Agents.Agent.Initialize | agents/ecommerce_agent.py:16-25 | The browser is launched exactly when the launch goes through; a failed launch reports failure and changes nothing. |
| Agents.Agent.Close | agents/ecommerce_agent.py:27-30 | Only an agent with a browser closes it. A close raises exactly when there is a browser and closing it fails. |
| Agents.LoginKeys | agents/amazon_agent.py:18-23 | The Amazon login reads "email" and "password"; Flipkart and AliExpress read "username" and "password". |
| Agents.LoginFlow | agents/amazon_agent.py:12-36 | Login opens the platform's login URL first. It succeeds exactly when the page loads, every credential the form reads is present and the signed-in marker appears; then the steps are the navigation followed by the whole form. |
| Agents.MissingCredentialFails | agents/flipkart_agent.py:18-19 | Without a password, login fails on every platform whatever the page does. |
| Agents.Agent.Login | agents/flipkart_agent.py:12-33 | Without a live browser (never launched, or closed) the call requests nothing and returns false, since the first page call raises. With one, the result is the login flow's. The agent is logged in after the call exactly when it was before or this login succeeded. Launch and close state do not change. |
| Agents.LoginAsWritten | agents/ecommerce_agent.py:77-82 | As written, login never returns true. Its logged_in flag is set exactly when the intended login succeeds. |
| Agents.LoginAsWrittenDisagrees | agents/aliexpress_agent.py:23-29 | With valid credentials on a page that signs in, the code as written leaves the agent logged in but returns false, while the intended login returns true. |
| Text.Before | agents/flipkart_agent.py:63 | JavaScript split(w)[0]: a prefix of the input with no occurrence of w before its end, stopping at the first w when there is one. |
| Text.Strip | agents/aliexpress_agent.py:178 | Python strip: the input minus leading and trailing whitespace, with Python's full set of whitespace characters; the result neither starts nor ends with whitespace. |
| Text.StripIdempotent | agents/aliexpress_agent.py:178 | Stripping twice is stripping once. |
| Text.Lower | agents/agent_factory.py:13 | The same length, each character lower-cased. |
| Text.LowerIdempotent | agents/agent_factory.py:13 | Lower-casing an already lower-cased name changes nothing. |
| Text.IntToStringRoundTrip | agents/aliexpress_agent.py:121 | Python str(int) is read back to the same integer, so the typed quantity identifies it. |
| Values.Show | agents/amazon_agent.py:45 | A truthy filter value renders as a non-empty string. |
| Values.Lookup | agents/amazon_agent.py:43-44 | filters.get(key) under "if filters": a value exactly when the mapping is there and holds the key, and then it is the mapping's value for that key. |
| Session.Play | agents/amazon_agent.py:148-156 | Running a form script performs its actions in order. It stops at the first typed field whose key is missing, reporting that key; it runs to the end exactly when nothing is missing. |
| Session.PlayCompleteIff | agents/amazon_agent.py:150-155 | A script runs to the end exactly when every key it reads is present. |
| Session.CompleteIffRequired | agents/flipkart_agent.py:143-149 | Every key is present exactly when the script's required key set is contained in the mapping's keys. |
| Session.PlayReportsFirstMissing | agents/flipkart_agent.py:155-158 | The key reported missing is the first one absent: every key read before it was present. |
| Session.PlayIgnoresUnreadKeys | agents/aliexpress_agent.py:152-158 | What a form types depends only on the keys it reads. |
| Listing.BuildSearchUrl | agents/amazon_agent.py:42-47 | The URL built by appends is the scheme's prefix and the raw query, then each filter tag with its value for every truthy min_price and max_price, min before max. |
| Listing.SearchUrlRoundTrip | agents/flipkart_agent.py:39-44 | When neither the query nor a rendered bound contains "&", the URL reads back to the query and exactly the truthy bounds. |
| Listing.KeptSpec | agents/amazon_agent.py:57-75 | Each search result comes from one page element, in page order, and every element that passes the keep rule gives a result. |
| Listing.Collect | agents/flipkart_agent.py:54-73 | The in-page loop returns exactly the kept elements, in order. |
| Listing.Search | agents/aliexpress_agent.py:35-83 | A search navigates once to the search URL. It returns the kept elements when the result list appears, and an empty list otherwise. |
| Product.Details | agents/amazon_agent.py:85-112 | The product page is opened. On success the details are the page's fields with "id" set to the requested id and the others kept; on failure the result is empty, and only then. |
| Checkout.PlaceOrder | agents/amazon_agent.py:138-190 | The cart URL is opened first. The order is placed exactly when the cart loads, each form shown or chosen has all its keys, the confirmation appears and the platform accepts its text; a placed result is the platform's, and its steps are the cart visit, the checkout clicks, each shown or chosen form in full, and the submit clicks. A cart that fails to load fails the order with its error text after the one visit. An address-form probe that raises fails the order with its error text after the checkout clicks. A shown address form missing a key fails the order with that key's KeyError text after the address steps up to it. With the address complete and the card chosen but incomplete, the order fails with the KeyError text of the first missing card key after the card steps up to it. With both forms complete, all steps through the submit clicks are taken, and the result is the platform's verdict if the confirmation appears and the confirmation error otherwise. |
| Checkout.MissingAddressKeyFails | agents/flipkart_agent.py:141-150 | With the address form shown and a key missing, the order fails with that key's KeyError text, naming the first required key that is absent. |
| Checkout.AddressReadOnlyWhenShown | agents/aliexpress_agent.py:151 | Without the address form, the order does not depend on the shipping address. |
| Checkout.CardReadOnlyWhenChosen | agents/aliexpress_agent.py:162 | When no card is chosen, the order does not depend on the payment information. |
| Checkout.UnconfirmedFails | agents/amazon_agent.py:172-183 | When the confirmation does not appear, the order fails with "Failed to confirm order placement". |
| AmazonAgent.SearchSchemeWellFormed | agents/amazon_agent.py:45-47 | The Amazon filter tags start a parameter and neither is a prefix of the other. |
| AmazonAgent.Convert | agents/amazon_agent.py:59-72 | A result is kept exactly when title, price and ASIN are non-empty; its id is the ASIN. |
| AmazonAgent.Search | agents/amazon_agent.py:38-83 | Navigates to the "/s?k=" URL with low-price and high-price tags, and returns the kept results. |
| AmazonAgent.SearchResultsComplete | agents/amazon_agent.py:65-72 | Every result has a non-empty id, title and price, and every element with all three is a result. |
| AmazonAgent.QueryIsNotEncoded | agents/amazon_agent.py:42 | The query is inserted raw, so two different requests can navigate to the same URL. |
| AmazonAgent.ProductDetails | agents/amazon_agent.py:88 | Opens "/dp/" + id and returns the details with the requested id. |
| AmazonAgent.AddToCart | agents/amazon_agent.py:114-136 | The steps are the product page visit, then, if it loaded, the dropdown and option clicks when the quantity exceeds one, and the add-to-cart click. The quantity dropdown and option are clicked exactly when the page loaded and the quantity exceeds one. The call succeeds exactly when the page loaded and the cart counter appeared. |
| AmazonAgent.OrderNumber | agents/amazon_agent.py:177 | The leftmost "#" followed by 3-7-7 digit groups gives its digits and dashes; there is none exactly when no position matches. |
| AmazonAgent.OrderNumberFound | agents/amazon_agent.py:177 | An order number placed in any text is read back exactly when no match starts before it. |
| AmazonAgent.FirstHashOrderNumberFound | agents/amazon_agent.py:177 | In particular, an order number after the first "#" is read back exactly. |
| AmazonAgent.Confirmation | agents/amazon_agent.py:172-183 | No text gives a placed order without id. Text in which an order number is found gives a placed order whose id is that number (the leftmost match's group). Text without one fails with the confirmation error. |
| AmazonAgent.AddressKeys | agents/amazon_agent.py:148-156 | The address form reads exactly full_name, address_line1, city, state, postal_code and phone. |
| AmazonAgent.PlaceOrder | agents/amazon_agent.py:138-190 | The cart URL is opened first. The order is placed exactly when the cart loads, the address-form probe does not raise, the shown address form finds its six keys, the card form (when a new card is asked for) finds its four, the confirmation appears, and its text, if any, holds an order number. A placed order's id is that number, or none without text. |
| AmazonAgent.CardKeys | agents/amazon_agent.py:159-165 | The card form reads exactly card_number, name_on_card, expiry and cvv. |
| AmazonAgent.PlacedOrderId | agents/amazon_agent.py:175-178 | A placed order's id is the leftmost "#"-prefixed 3-7-7 number in the confirmation text, as a slice of that text with no match before it; without text there is no id. |
| AmazonAgent.UnnumberedConfirmationFails | agents/amazon_agent.py:172-183 | A confirmed order with complete forms whose text holds no order number fails with "Failed to confirm order placement". |
| AmazonAgent.QuantityOptionInjective | agents/amazon_agent.py:122 | Different quantities select different dropdown options. |
| FlipkartAgent.SearchSchemeWellFormed | agents/flipkart_agent.py:42-44 | The Flipkart price facets start a parameter and neither is a prefix of the other. |
| FlipkartAgent.ListingId | agents/flipkart_agent.py:63 | There is no id exactly when the link has no "pid=". Otherwise the id is the start of the text after the first "pid=": it holds no "&" and no "pid=" starts inside it, and what follows it is empty or starts with "&" or "pid=". |
| FlipkartAgent.ListingIdRoundTrip | agents/flipkart_agent.py:63 | An id free of "&" and "=", placed after a "pid=" that no earlier "pid=" precedes and followed by "&" or the end, is read back exactly. |
| FlipkartAgent.Convert | agents/flipkart_agent.py:62-71 | A tile is kept exactly when title, price and link are non-empty; its id is what the link carries, possibly none. |
| FlipkartAgent.Search | agents/flipkart_agent.py:35-81 | Navigates to the "/search?q=" URL with the price facets, and returns the kept tiles. |
| FlipkartAgent.TileWithoutPid | agents/flipkart_agent.py:62-66 | A complete tile whose link has no "pid=" is still a result, without an id. |
| FlipkartAgent.ProductDetails | agents/flipkart_agent.py:86 | Opens "/p/" + id and returns the details with the requested id. |
| FlipkartAgent.AddToCart | agents/flipkart_agent.py:112-129 | Opens "/p/" + id and, if it loaded, clicks add-to-cart. Succeeds exactly when the cart badge appears. |
| FlipkartAgent.QuantityIgnored | agents/flipkart_agent.py:112-118 | The quantity changes neither the steps nor the result. |
| FlipkartAgent.OrderCode | agents/flipkart_agent.py:170 | The leftmost "OD" followed by digits gives "OD" and the whole digit run; there is none exactly when nothing matches. |
| FlipkartAgent.OrderCodeFound | agents/flipkart_agent.py:170 | An order code placed in any text, with no match starting before it and no digit after it, is read back exactly. |
| FlipkartAgent.FirstOOrderCodeFound | agents/flipkart_agent.py:170 | In particular, an order code with no "O" before it and no digit after it is read back exactly. |
| FlipkartAgent.Confirmation | agents/flipkart_agent.py:165-176 | No text gives a placed order without id. Text in which an OD code is found gives a placed order whose id is that code (the leftmost match). Text without one fails with the confirmation error. |
| FlipkartAgent.AddressKeys | agents/flipkart_agent.py:141-150 | The address form reads all seven keys, address_line2 included. |
| FlipkartAgent.CardKeys | agents/flipkart_agent.py:153-159 | The card form reads card_number, expiry_month, expiry_year and cvv. |
| FlipkartAgent.PlaceOrder | agents/flipkart_agent.py:131-183 | The cart URL is opened first. The order is placed exactly when the cart loads, the address-form probe does not raise, the shown address form finds its seven keys, the card form (when paying by card) finds its four, the confirmation appears, and its text, if any, holds an OD code. A placed order's id is that code, or none without text. |
| FlipkartAgent.PlacedOrderId | agents/flipkart_agent.py:168-171 | A placed order's id is the leftmost "OD" plus digits in the confirmation text, taken with its whole digit run from where the match starts; without text there is no id. |
| FlipkartAgent.UncodedConfirmationFails | agents/flipkart_agent.py:165-176 | A confirmed order with complete forms whose text holds no OD code fails with "Failed to confirm order placement". |
| AliExpressAgent.SearchSchemeWellFormed | agents/aliexpress_agent.py:41-44 | The minPrice and maxPrice tags start a parameter and neither is a prefix of the other. |
| AliExpressAgent.ProductIdStart | agents/aliexpress_agent.py:60 | The first position where digits followed by ".html" match; none exactly when no position matches. |
| AliExpressAgent.ProductId | agents/aliexpress_agent.py:60 | The id is a non-empty run of digits that the link has, followed by ".html", at the leftmost match. |
| AliExpressAgent.ProductIdRoundTrip | agents/aliexpress_agent.py:60 | Digits followed by ".html", with no digit before them, are read back exactly. |
| AliExpressAgent.Convert | agents/aliexpress_agent.py:55-73 | A link is kept exactly when it sits in a card with non-empty title and price and it holds a product id. |
| AliExpressAgent.Search | agents/aliexpress_agent.py:35-83 | Navigates to the "/wholesale?SearchText=" URL with minPrice and maxPrice, and returns the kept links. |
| AliExpressAgent.SearchIdsAreDigits | agents/aliexpress_agent.py:64-67 | Every result has a non-empty all-digit id. |
| AliExpressAgent.ProductUrlCarriesId | agents/aliexpress_agent.py:88 | The product URL for an all-digit id reads back to that id. |
| AliExpressAgent.ProductDetails | agents/aliexpress_agent.py:88 | Opens "/item/" + id + ".html" and returns the details with the requested id. |
| AliExpressAgent.AddToCart | agents/aliexpress_agent.py:114-136 | The steps are the product page visit, then, if it loaded, the typed quantity when it exceeds one, and the add-to-cart click. The quantity is typed exactly when the page loaded and it exceeds one. The call succeeds exactly when the dialog appears and its text, lower-cased, contains "successfully". |
| AliExpressAgent.SuccessTest | agents/aliexpress_agent.py:130 | A missing dialog text is no success, and the test does not depend on letter case. |
| AliExpressAgent.SuccessWording | agents/aliexpress_agent.py:130 | Text containing "SUCCESSFULLY" in any position counts as success. |
| AliExpressAgent.Confirmation | agents/aliexpress_agent.py:173-179 | Never fails once confirmed. No text gives no id; otherwise the id is the text stripped, so it is already stripped and is empty exactly when the text is all whitespace. |
| AliExpressAgent.AddressKeys | agents/aliexpress_agent.py:151-159 | The address form requires six keys; address_line2 is optional. |
| AliExpressAgent.MissingLineTwoTypesEmpty | agents/aliexpress_agent.py:154 | Without address_line2, the form types an empty second line. |
| AliExpressAgent.PlaceOrder | agents/aliexpress_agent.py:138-191 | The cart URL is opened first. The order is placed exactly when the cart loads, the address-form probe does not raise, the shown address form finds its six required keys, the card form (when paying by card) finds its four, and the confirmation appears. A placed order's id is the order-number text stripped, or none without text. |
| AliExpressAgent.CardKeys | agents/aliexpress_agent.py:162-167 | The card form reads exactly card_number, name_on_card, expiry and cvv. |
| AliExpressAgent.ConfirmedIsPlaced | agents/aliexpress_agent.py:173-179 | With the cart loaded, the forms complete and the confirmation shown, the order is placed whatever the text says; its id is the text stripped, empty exactly when the text is blank, and none without text. |

## Left out

- The browser itself: Playwright calls, selector waits and timeouts become input records. So
  do the in-page scripts' DOM queries and `page.evaluate`.
- `_safe_click` and `_safe_type` catch and log their own failures. A failed click or type is not
  modelled: every step returned is taken to have been requested.
- `parseFloat` of prices and ratings: results carry the raw price text, and the rating token the
  page parses. Floating point is not modelled.
- Cookie loading (`_load_cookies`) and writing a cookie file: no file system, so the cookie file
  names are not modelled. The failure of the save is, under "## Findings".
- Logging, `app.py` (the HTTP front end) and `agents/__init__.py` are not part of this model.
- Concurrency: `get_agent` and `close_all` are coroutines. The model runs each call to completion,
  with no interleaving. `_instances` is a class attribute shared by the whole process; the model
  is one factory object.
- Search, product details, add to cart and place order are functions of what the browser
  reports, not methods of `Agents.Agent`. They do not consult the agent's launched and closed
  state: an agent without a live browser is covered as a page that fails to load, whose error
  text is an input. Only login is tied to the agent's state.
- Registry.AgentFactory.CloseAll: the order in which agents are closed is not modelled.
- Agents.Agent.Initialize: a launch that fails part-way (browser started, context not) is one
  failed launch. Such an agent is never cached, so the difference is not observable through
  the factory.
- Text.Lower: Python's `str.lower()` is modelled on the characters that lower-case to ASCII
  letters (`A`-`Z` and the Kelvin sign). Other characters are kept. Which names are accepted is
  exact, but the error message for a name with other non-ASCII capitals is not.
- AmazonAgent.OrderNumber: Python's `\d` also matches non-ASCII decimal digits; the model
  accepts ASCII digits only. FlipkartAgent.OrderCode has the same restriction.
- Values.Show: filter values are `None`, booleans, integers and strings. Floats, lists and
  mappings are not modelled.
- AmazonAgent.PlaceOrder: `payment_info` is a mapping of strings, so `get("new_card")` is truthy
  exactly when non-empty.

## Findings

| source | as written | input that shows it | evidently intended | confidence | as-written member | corrected member |
|---|---|---|---|---|---|---|
| agents/ecommerce_agent.py:77-82 | `_save_cookies` passes the unawaited `context.cookies()` coroutine to `json.dump`, which raises `TypeError`. The bare `except` around the signed-in wait (e.g. agents/amazon_agent.py:26-32) turns that into `return False`, after `logged_in` was already set. So login never returns true. | Any successful sign-in, e.g. Amazon with `{"email": "e", "password": "p"}` on a page that shows the account marker. | Return true once signed in, with the cookies saved. | not executed | Agents.LoginAsWritten, Agents.LoginAsWrittenDisagrees | Agents.LoginFlow, Agents.Agent.Login |
