/** Search, shared by the three agents: the search URL each builds by appending to a string, and
    the in-page loop that walks the result elements and pushes one summary per element that has
    every required field. */
module Listing {
  import opened Wrappers
  import opened Values
  import Text
  import Session

  // ---------------------------------------------------------------------------
  // The search URL

  /** How one platform spells a search: `prefix + query`, then `minTag + str(min_price)`,
      then `maxTag + str(max_price)`. */
  datatype Scheme = Scheme(prefix: string, minTag: string, maxTag: string)

  /** Both filter tags start a new query parameter, and neither is a prefix of the other. */
  predicate WellFormed(scheme: Scheme) {
    && |scheme.minTag| > 0 && scheme.minTag[0] == '&'
    && |scheme.maxTag| > 0 && scheme.maxTag[0] == '&'
    && exists k :: 0 <= k < |scheme.minTag| && k < |scheme.maxTag| && scheme.minTag[k] != scheme.maxTag[k]
  }

  /** `tag + str(v)` if `v` is truthy, nothing otherwise. */
  function Param(tag: string, v: Option<Scalar>): string {
    if Given(v) then tag + Show(v.value) else ""
  }

  /** The URL a search navigates to. */
  function SearchUrl(scheme: Scheme, query: string, filters: Option<map<string, Scalar>>): string {
    scheme.prefix + query
      + Param(scheme.minTag, Lookup(filters, "min_price"))
      + Param(scheme.maxTag, Lookup(filters, "max_price"))
  }

  /** Builds the search URL the way the agents do, by successive appends. */
  method BuildSearchUrl(scheme: Scheme, query: string, filters: Option<map<string, Scalar>>) returns (url: string)
    ensures url == SearchUrl(scheme, query, filters)
  {
    url := scheme.prefix + query;
    if filters.Some? && filters.value != map[] {
      var low := Lookup(filters, "min_price");
      if Given(low) {
        url := url + scheme.minTag + Show(low.value);
      }
      var high := Lookup(filters, "max_price");
      if Given(high) {
        url := url + scheme.maxTag + Show(high.value);
      }
    }
  }

  /** What a search URL carries: the query and the rendered price bounds. */
  datatype SearchParts = SearchParts(query: string, min: Option<string>, max: Option<string>)

  /** The rendered value of a filter, `None` when the filter is omitted. */
  function Shown(v: Option<Scalar>): Option<string> {
    if Given(v) then Some(Show(v.value)) else None
  }

  /** Consumes `tag + value` from the front of `s`, the value running up to the next `&`. */
  function TakeParam(tag: string, s: string): (Option<string>, string) {
    if tag <= s then
      var v := Text.Before(s[|tag|..], "&");
      (Some(v), s[|tag| + |v|..])
    else (None, s)
  }

  /** Reads a search URL back into its parts; `None` if it is not of the scheme's shape. */
  function ParseSearchUrl(scheme: Scheme, url: string): Option<SearchParts> {
    if !(scheme.prefix <= url) then None
    else
      var rest := url[|scheme.prefix|..];
      var query := Text.Before(rest, "&");
      var low := TakeParam(scheme.minTag, rest[|query|..]);
      var high := TakeParam(scheme.maxTag, low.1);
      if high.1 == "" then Some(SearchParts(query, low.0, high.0)) else None
  }

  /** `Before` on a single character, at a seam. */
  lemma BeforeAmpersand(a: string, b: string)
    requires '&' !in a
    requires b == [] || b[0] == '&'
    ensures Text.Before(a + b, "&") == a
  {
    forall j | 0 <= j < |a| ensures !Text.OccursAt(a + b, "&", j) {
      assert (a + b)[j] == a[j];
    }
    if b != [] {
      assert b[0..1] == "&";
    }
    Text.BeforeSeam(a, b, "&");
  }

  lemma TakeParamPresent(tag: string, v: string, next: string)
    requires '&' !in v
    requires next == [] || next[0] == '&'
    ensures TakeParam(tag, tag + v + next) == (Some(v), next)
  {
    var s := tag + v + next;
    assert s[|tag|..] == v + next;
    BeforeAmpersand(v, next);
    assert s[|tag| + |v|..] == next;
  }

  lemma TakeParamAbsent(scheme: Scheme, tag: string, other: string, next: string)
    requires WellFormed(scheme)
    requires (tag == scheme.minTag && other == scheme.maxTag) || (tag == scheme.maxTag && other == scheme.minTag)
    requires next == [] || other <= next
    ensures TakeParam(tag, next) == (None, next)
  {
  }

  /** `tag + value` for a bound that is given, nothing for one that is not. */
  function Part(tag: string, value: Option<string>): string {
    if value.Some? then tag + value.value else ""
  }

  /** The lower bound's parameter reads back to the bound and stops where the upper one starts. */
  lemma TakeLow(scheme: Scheme, low: Option<string>, x: string)
    requires WellFormed(scheme)
    requires low.Some? ==> '&' !in low.value
    requires x == [] || scheme.maxTag <= x
    ensures TakeParam(scheme.minTag, Part(scheme.minTag, low) + x) == (low, x)
  {
    if low.Some? {
      assert Part(scheme.minTag, low) + x == scheme.minTag + low.value + x;
      assert x == [] || x[0] == scheme.maxTag[0];
      TakeParamPresent(scheme.minTag, low.value, x);
    } else {
      assert Part(scheme.minTag, low) + x == x;
      TakeParamAbsent(scheme, scheme.minTag, scheme.maxTag, x);
    }
  }

  /** The upper bound's parameter reads back to the bound and ends the URL. */
  lemma TakeHigh(scheme: Scheme, high: Option<string>)
    requires WellFormed(scheme)
    requires high.Some? ==> '&' !in high.value
    ensures TakeParam(scheme.maxTag, Part(scheme.maxTag, high)) == (high, "")
  {
    if high.Some? {
      assert Part(scheme.maxTag, high) == scheme.maxTag + high.value + [];
      TakeParamPresent(scheme.maxTag, high.value, []);
    } else {
      TakeParamAbsent(scheme, scheme.maxTag, scheme.minTag, []);
    }
  }

  lemma ParseParts(scheme: Scheme, query: string, low: Option<string>, high: Option<string>)
    requires WellFormed(scheme)
    requires '&' !in query
    requires low.Some? ==> '&' !in low.value
    requires high.Some? ==> '&' !in high.value
    ensures ParseSearchUrl(scheme, scheme.prefix + query + Part(scheme.minTag, low) + Part(scheme.maxTag, high))
         == Some(SearchParts(query, low, high))
  {
    var m, x := Part(scheme.minTag, low), Part(scheme.maxTag, high);
    var url := scheme.prefix + query + m + x;
    assert scheme.prefix <= url;
    var rest := url[|scheme.prefix|..];
    assert rest == query + (m + x);
    assert x == [] || scheme.maxTag <= x;
    if m + x != [] {
      assert (m + x)[0] == '&';
    }
    BeforeAmpersand(query, m + x);
    assert rest[|query|..] == m + x;
    TakeLow(scheme, low, x);
    TakeHigh(scheme, high);
  }

  /** The search URL is unambiguous when neither the query nor a rendered bound contains `&`:
      reading it back yields the query verbatim and exactly the truthy bounds, min before max. */
  lemma SearchUrlRoundTrip(scheme: Scheme, query: string, filters: Option<map<string, Scalar>>)
    requires WellFormed(scheme)
    requires '&' !in query
    requires var low := Shown(Lookup(filters, "min_price")); low.Some? ==> '&' !in low.value
    requires var high := Shown(Lookup(filters, "max_price")); high.Some? ==> '&' !in high.value
    ensures ParseSearchUrl(scheme, SearchUrl(scheme, query, filters))
         == Some(SearchParts(query, Shown(Lookup(filters, "min_price")), Shown(Lookup(filters, "max_price"))))
  {
    var low, high := Lookup(filters, "min_price"), Lookup(filters, "max_price");
    assert Param(scheme.minTag, low) == Part(scheme.minTag, Shown(low));
    assert Param(scheme.maxTag, high) == Part(scheme.maxTag, Shown(high));
    ParseParts(scheme, query, Shown(low), Shown(high));
  }

  // ---------------------------------------------------------------------------
  // The in-page extraction loop

  /** A search result as the agents return it. The price is the raw text the page shows. */
  datatype Summary = Summary(id: Option<string>, title: string, price: string, rating: Option<string>, imageUrl: Option<string>)

  function Keep<B>(o: Option<B>): seq<B> {
    if o.Some? then [o.value] else []
  }

  /** The results of walking `items` in page order and pushing every converted element. */
  function Kept<A, B>(items: seq<A>, convert: A -> Option<B>): seq<B> {
    if items == [] then []
    else Kept(items[..|items| - 1], convert) + Keep(convert(items[|items| - 1]))
  }

  /** Page positions of the elements that produced a result, in order. */
  ghost function Sources<A, B>(items: seq<A>, convert: A -> Option<B>): seq<nat> {
    if items == [] then []
    else Sources(items[..|items| - 1], convert) + (if convert(items[|items| - 1]).Some? then [|items| - 1] else [])
  }

  /** One result per source position. */
  lemma {:induction false} KeptLength<A, B>(items: seq<A>, convert: A -> Option<B>)
    ensures |Kept(items, convert)| == |Sources(items, convert)|
  {
    if items != [] {
      KeptLength(items[..|items| - 1], convert);
    }
  }

  /** Result `k` is what the element at position `Sources[k]` converts to. */
  lemma {:induction false} KeptFrom<A, B>(items: seq<A>, convert: A -> Option<B>)
    ensures var r, src := Kept(items, convert), Sources(items, convert);
      |r| == |src| && forall k :: 0 <= k < |src| ==> src[k] < |items| && convert(items[src[k]]) == Some(r[k])
  {
    KeptLength(items, convert);
    if items != [] {
      var n := |items| - 1;
      var init := items[..n];
      KeptFrom(init, convert);
      var r0, s0 := Kept(init, convert), Sources(init, convert);
      var r, src := Kept(items, convert), Sources(items, convert);
      forall k | 0 <= k < |src| ensures src[k] < |items| && convert(items[src[k]]) == Some(r[k]) {
        if k < |s0| {
          assert src[k] == s0[k] && r[k] == r0[k];
          assert items[s0[k]] == init[s0[k]];
        }
      }
    }
  }

  /** Source positions are strictly increasing and within the page. */
  lemma {:induction false} SourcesIncrease<A, B>(items: seq<A>, convert: A -> Option<B>)
    ensures forall k :: 0 <= k < |Sources(items, convert)| ==> Sources(items, convert)[k] < |items|
    ensures forall k1, k2 :: 0 <= k1 < k2 < |Sources(items, convert)| ==>
      Sources(items, convert)[k1] < Sources(items, convert)[k2]
  {
    if items != [] {
      var n := |items| - 1;
      var init := items[..n];
      SourcesIncrease(init, convert);
      var s0, src := Sources(init, convert), Sources(items, convert);
      assert src == s0 + (if convert(items[n]).Some? then [n] else []);
      forall k | 0 <= k < |src| ensures src[k] < |items| {
        if k < |s0| {
          assert src[k] == s0[k];
        }
      }
      forall k1, k2 | 0 <= k1 < k2 < |src| ensures src[k1] < src[k2] {
        if k2 < |s0| {
          assert src[k1] == s0[k1] && src[k2] == s0[k2];
        } else {
          assert src[k1] == s0[k1] && src[k2] == n;
        }
      }
    }
  }

  /** Every element that converts has its position among the sources. */
  lemma {:induction false} SourcesComplete<A, B>(items: seq<A>, convert: A -> Option<B>)
    ensures forall i :: 0 <= i < |items| && convert(items[i]).Some? ==> i in Sources(items, convert)
  {
    if items != [] {
      var n := |items| - 1;
      var init := items[..n];
      SourcesComplete(init, convert);
      var s0, src := Sources(init, convert), Sources(items, convert);
      forall i | 0 <= i < |items| && convert(items[i]).Some? ensures i in src {
        if i < n {
          assert init[i] == items[i];
          assert i in s0;
        } else {
          assert src[|src| - 1] == n;
        }
      }
    }
  }

  /** Result `k` comes from the element at page position `Sources[k]`; positions increase, so
      results keep page order; and every element that converts contributes a result. */
  lemma KeptSpec<A, B>(items: seq<A>, convert: A -> Option<B>)
    ensures var r, src := Kept(items, convert), Sources(items, convert);
      && |r| == |src|
      && (forall k :: 0 <= k < |src| ==> src[k] < |items| && convert(items[src[k]]) == Some(r[k]))
      && (forall k1, k2 :: 0 <= k1 < k2 < |src| ==> src[k1] < src[k2])
      && (forall i :: 0 <= i < |items| && convert(items[i]).Some? ==> i in src)
  {
    KeptFrom(items, convert);
    SourcesIncrease(items, convert);
    SourcesComplete(items, convert);
  }

  /** The in-page loop: walk the elements and push each one that converts. */
  method Collect<A, B>(items: seq<A>, convert: A -> Option<B>) returns (results: seq<B>)
    ensures results == Kept(items, convert)
  {
    results := [];
    var i := 0;
    while i < |items|
      invariant 0 <= i <= |items|
      invariant results == Kept(items[..i], convert)
    {
      var o := convert(items[i]);
      if o.Some? {
        results := results + [o.value];
      }
      assert items[..i + 1][..i] == items[..i];
      i := i + 1;
    }
    assert items[..|items|] == items;
  }

  /** What a search returns: nothing when the page failed to load or the results container
      never appeared, otherwise the kept elements. */
  datatype SearchPage<A> = Unavailable | Loaded(items: seq<A>)

  method Search<A>(scheme: Scheme, query: string, filters: Option<map<string, Scalar>>,
                   page: SearchPage<A>, convert: A -> Option<Summary>)
    returns (r: Session.Trace<seq<Summary>>)
    ensures r.steps == [Session.Navigate(SearchUrl(scheme, query, filters))]
    ensures r.result == if page.Loaded? then Kept(page.items, convert) else []
  {
    var url := BuildSearchUrl(scheme, query, filters);
    var results := [];
    if page.Loaded? {
      results := Collect(page.items, convert);
    }
    r := Session.Trace([Session.Navigate(url)], results);
  }
}
