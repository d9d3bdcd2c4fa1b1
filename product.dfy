/** Product pages, shared by the three agents: the details an agent reads from a product page,
    and what the browser reports while adding a product to the cart. */
module Product {
  import opened Wrappers
  import opened Session

  /** A value the in-page script returns for one detail: absent (`undefined`), a text, or a
      list of texts (features, highlights). */
  datatype PageValue = Absent | Text(s: string) | Texts(items: seq<string>)

  /** `get_product_details`: navigate to the product page; if the title appears, the extracted
      fields with `"id"` set to the requested product id; on any failure, an empty mapping. */
  function Details(url: string, productId: string, page: Option<map<string, PageValue>>): (r: Trace<map<string, PageValue>>)
    ensures r.steps == [Navigate(url)]
    ensures page.Some? ==> r.result.Keys == page.value.Keys + {"id"} && r.result["id"] == Text(productId)
    ensures page.Some? ==> forall k :: k in page.value && k != "id" ==> r.result[k] == page.value[k]
    ensures r.result == map[] <==> page.None?
  {
    var details := if page.Some? then page.value["id" := Text(productId)] else map[];
    assert page.Some? ==> "id" in details;
    Trace([Navigate(url)], details)
  }

  /** What the browser reports while adding to the cart: whether the product page loaded,
      whether the confirmation element appeared in time, and the text that element holds. */
  datatype CartPage = CartPage(loaded: bool, confirmed: bool, dialogText: Option<string>)
}
