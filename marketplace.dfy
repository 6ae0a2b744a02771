/**
 * The outbound link attached to every listing: a marketplace is chosen by a
 * first-match, substring test on the lower-cased site name, and the quoted
 * title is substituted into that marketplace's search-URL template.
 *
 * The product search and the fallback catalog use two different rules: the
 * search tests amazon, myntra, ajio, flipkart and falls back to a Google
 * search; the fallback catalog has no flipkart test and falls back to Flipkart.
 */
module Marketplace {
  import opened PyText
  import opened UrlQuote

  datatype Market = Amazon | Myntra | Ajio | Flipkart | Google

  /** The search rule, on a site name that is already lower-case. */
  function SearchMarket(site: string): (r: Market)
    ensures Contains(site, "amazon") ==> r == Amazon
    ensures r == Google <==>
      !Contains(site, "amazon") && !Contains(site, "myntra") && !Contains(site, "ajio") && !Contains(site, "flipkart")
  {
    if Contains(site, "amazon") then Amazon
    else if Contains(site, "myntra") then Myntra
    else if Contains(site, "ajio") then Ajio
    else if Contains(site, "flipkart") then Flipkart
    else Google
  }

  /** The fallback catalog's rule, on a site name that is already lower-case. */
  function DummyMarket(site: string): (r: Market)
    ensures r != Google
    ensures Contains(site, "amazon") ==> r == Amazon
    ensures r == Flipkart <==> !Contains(site, "amazon") && !Contains(site, "myntra") && !Contains(site, "ajio")
  {
    if Contains(site, "amazon") then Amazon
    else if Contains(site, "myntra") then Myntra
    else if Contains(site, "ajio") then Ajio
    else Flipkart
  }

  /** The search-URL template of each marketplace, filled with the quoted title. */
  function MarketUrl(m: Market, query: string): (r: string)
    ensures |query| < |r| && r[|r| - |query|..] == query
  {
    match m
    case Amazon => "https://www.amazon.in/s?k=" + query
    case Myntra => "https://www.myntra.com/" + query + "?rawQuery=" + query
    case Ajio => "https://www.ajio.com/search/?text=" + query
    case Flipkart => "https://www.flipkart.com/search?q=" + query
    case Google => "https://www.google.com/search?q=" + query
  }

  /** The link `search_products_with_gemini` gives a listing. */
  function SearchUrl(site: string, title: string): string {
    MarketUrl(SearchMarket(Lower(site)), Quote(title))
  }

  /** The link `generate_dummy_products` gives a listing. */
  function DummyUrl(site: string, title: string): string {
    MarketUrl(DummyMarket(Lower(site)), Quote(title))
  }

  /** The ordered (fragment, marketplace) rules of the product search. */
  const SearchRules: seq<(string, Market)> :=
    [("amazon", Amazon), ("myntra", Myntra), ("ajio", Ajio), ("flipkart", Flipkart)]

  /** The fallback catalog's rules: the same list without the flipkart entry. */
  const DummyRules: seq<(string, Market)> := SearchRules[..3]

  /** Reference rule: the marketplace of the first fragment occurring in `site`, else `fallback`. */
  function FirstMatch(rules: seq<(string, Market)>, site: string, fallback: Market): Market {
    if rules == [] then fallback
    else if Contains(site, rules[0].0) then rules[0].1
    else FirstMatch(rules[1..], site, fallback)
  }

  /**
   * First match wins: the result is the marketplace of rule `k` exactly when
   * rule `k`'s fragment occurs and no earlier fragment does, and the fallback
   * exactly when no fragment occurs.
   */
  lemma {:induction false} FirstMatchSpec(rules: seq<(string, Market)>, site: string, fallback: Market)
    ensures (forall k :: 0 <= k < |rules| ==> !Contains(site, rules[k].0))
            ==> FirstMatch(rules, site, fallback) == fallback
    ensures forall k :: (0 <= k < |rules| && Contains(site, rules[k].0)
                          && (forall l :: 0 <= l < k ==> !Contains(site, rules[l].0)))
                        ==> FirstMatch(rules, site, fallback) == rules[k].1
  {
    if rules != [] {
      FirstMatchSpec(rules[1..], site, fallback);
      forall k | 0 <= k < |rules| && Contains(site, rules[k].0)
                 && (forall l :: 0 <= l < k ==> !Contains(site, rules[l].0))
        ensures FirstMatch(rules, site, fallback) == rules[k].1
      {
        if k > 0 {
          assert !Contains(site, rules[0].0);
          assert rules[1..][k - 1] == rules[k];
          forall l | 0 <= l < k - 1 ensures !Contains(site, rules[1..][l].0) {
            assert rules[1..][l] == rules[l + 1];
          }
        }
      }
    }
  }

  /** The search rule is the first match over its ordered rule list, Google when none matches. */
  lemma SearchMarketIsFirstMatch(site: string)
    ensures SearchMarket(site) == FirstMatch(SearchRules, site, Google)
  {
    var r1, r2, r3 := SearchRules[1..], SearchRules[2..], SearchRules[3..];
    assert r1[1..] == r2 && r2[1..] == r3 && r3[1..] == [];
    assert FirstMatch(r3, site, Google) == if Contains(site, "flipkart") then Flipkart else Google;
    assert FirstMatch(r2, site, Google) == if Contains(site, "ajio") then Ajio else FirstMatch(r3, site, Google);
    assert FirstMatch(r1, site, Google) == if Contains(site, "myntra") then Myntra else FirstMatch(r2, site, Google);
  }

  /** The fallback catalog's rule is the first match over the first three rules, Flipkart when none matches. */
  lemma DummyMarketIsFirstMatch(site: string)
    ensures DummyMarket(site) == FirstMatch(DummyRules, site, Flipkart)
  {
    var r1, r2 := DummyRules[1..], DummyRules[2..];
    assert r1[1..] == r2 && r2[1..] == [];
    assert FirstMatch(r2, site, Flipkart) == if Contains(site, "ajio") then Ajio else Flipkart;
    assert FirstMatch(r1, site, Flipkart) == if Contains(site, "myntra") then Myntra else FirstMatch(r2, site, Flipkart);
  }

  /** The two rules agree except where the search falls back to Google: there the catalog links to Flipkart. */
  lemma DummyUrlVersusSearchUrl(site: string, title: string)
    ensures DummyUrl(site, title)
         == if SearchMarket(Lower(site)) == Google then MarketUrl(Flipkart, Quote(title))
            else SearchUrl(site, title)
  {
  }

  /** The case of the site name never changes the link. */
  lemma SearchUrlIgnoresCase(site: string, site': string, title: string)
    requires SameIgnoringCase(site, site')
    ensures SearchUrl(site, title) == SearchUrl(site', title)
    ensures DummyUrl(site, title) == DummyUrl(site', title)
  {
    SameIgnoringCaseLower(site, site');
  }

  /** The two letters after `https://www.` that tell the templates apart. */
  function HostKey(m: Market): string {
    match m
    case Amazon => "am"
    case Myntra => "my"
    case Ajio => "aj"
    case Flipkart => "fl"
    case Google => "go"
  }

  /** The two letters after `https://www.` in every template spell the marketplace's host key. */
  lemma MarketUrlHostKey(m: Market, q: string)
    ensures |MarketUrl(m, q)| >= 23
    ensures MarketUrl(m, q)[12] == HostKey(m)[0] && MarketUrl(m, q)[13] == HostKey(m)[1]
  {
    match m
    case Amazon =>
    case Myntra =>
    case Ajio =>
    case Flipkart =>
    case Google =>
  }

  /** Within one template, the link determines the query. */
  lemma MarketUrlQuery(m: Market, q: string, q': string)
    requires UrlSafeText(q) && UrlSafeText(q')
    requires MarketUrl(m, q) == MarketUrl(m, q')
    ensures q == q'
  {
    var u := MarketUrl(m, q);
    if m == Myntra {
      assert |u| == 23 + 2 * |q| + 10 == 23 + 2 * |q'| + 10;
      assert q == u[23..23 + |q|] == q';
    } else {
      assert q == u[|u| - |q|..] == q';
    }
  }

  /**
   * A link determines its marketplace and its query: no two (marketplace,
   * quoted title) pairs give the same link.
   */
  lemma MarketUrlInjective(m: Market, q: string, m': Market, q': string)
    requires UrlSafeText(q) && UrlSafeText(q')
    requires MarketUrl(m, q) == MarketUrl(m', q')
    ensures m == m' && q == q'
  {
    MarketUrlHostKey(m, q);
    MarketUrlHostKey(m', q');
    assert HostKey(m)[0] == HostKey(m')[0] && HostKey(m)[1] == HostKey(m')[1];
    MarketUrlQuery(m, q, q');
  }
}
