/**
 * `generate_dummy_products`: the fixed catalog shown when the product search
 * fails. Three archetypal listings, each priced at the smaller of the budget
 * and its base price, on the site given at the same position of `sites` or a
 * default, each linked by the fallback catalog's site rule.
 */
module DummyCatalog {
  import opened Common
  import opened PyText
  import opened JsonModel
  import opened UrlQuote
  import opened Marketplace
  import opened Price

  const Titles: seq<string> := ["Premium Silk Saree", "Designer Ethnic Wear", "Traditional Organza Saree"]
  const BasePrices: seq<int> := [1800, 2500, 2200]
  const DefaultSites: seq<string> := ["Amazon", "Myntra", "Ajio"]

  function Min(a: int, b: int): int {
    if a <= b then a else b
  }

  /** `sites[i] if len(sites) > i else default`. */
  function SiteFor(sites: seq<string>, i: nat): string
    requires i < 3
  {
    if |sites| > i then sites[i] else DefaultSites[i]
  }

  /** The `i`-th dict as the literal list builds it, before the loop adds `url`. */
  function Seed(i: nat, budget: int, sites: seq<string>): Dict
    requires i < 3
  {
    [("title", JString(Titles[i])), ("price", JInt(Min(budget, BasePrices[i]))), ("site", JString(SiteFor(sites, i)))]
  }

  /** The `i`-th listing of the catalog, with its link. */
  function Listing(i: nat, budget: int, sites: seq<string>): Dict
    requires i < 3
  {
    Set(Seed(i, budget, sites), "url", JString(DummyUrl(SiteFor(sites, i), Titles[i])))
  }

  /** The catalog the function returns. */
  function Catalog(budget: int, sites: seq<string>): seq<Dict> {
    seq(3, i requires 0 <= i < 3 => Listing(i, budget, sites))
  }

  /** `p["price"] <= budget` for the catalog's integer prices. */
  predicate PriceAtMost(d: Dict, budget: int) {
    match Get(d, "price")
    case Some(JInt(x)) => x <= budget
    case _ => false
  }

  /** `[p for p in dummy_products if p["price"] <= budget]`. */
  function WithinBudget(ds: seq<Dict>, budget: int): (r: seq<Dict>)
    ensures |r| <= |ds|
  {
    if ds == [] then []
    else (if PriceAtMost(ds[0], budget) then [ds[0]] else []) + WithinBudget(ds[1..], budget)
  }

  /** The final filter keeps exactly the listings of the list that are within budget. */
  lemma {:induction false} WithinBudgetMembers(ds: seq<Dict>, budget: int)
    ensures forall d :: d in WithinBudget(ds, budget) <==> d in ds && PriceAtMost(d, budget)
  {
    if ds != [] {
      WithinBudgetMembers(ds[1..], budget);
      assert ds == [ds[0]] + ds[1..];
    }
  }

  /** The title, price and site a seed holds. */
  lemma SeedLookups(i: nat, budget: int, sites: seq<string>)
    requires i < 3
    ensures Get(Seed(i, budget, sites), "title") == Some(JString(Titles[i]))
    ensures Get(Seed(i, budget, sites), "price") == Some(JInt(Min(budget, BasePrices[i])))
    ensures Get(Seed(i, budget, sites), "site") == Some(JString(SiteFor(sites, i)))
  {
    var t, p, s := ("title", JString(Titles[i])), ("price", JInt(Min(budget, BasePrices[i]))), ("site", JString(SiteFor(sites, i)));
    assert Seed(i, budget, sites) == [t] + ([p] + [s]);
    assert "title"[0] != "price"[0];
    GetCons(t.0, t.1, [p] + [s], "price");
    GetCons(t.0, t.1, [p] + [s], "site");
    GetCons(p.0, p.1, [s], "site");
  }

  /** The budget filter keeps a list whose integer prices are all within budget. */
  lemma {:induction false} WithinBudgetKeepsAll(ds: seq<Dict>, budget: int)
    requires forall j :: 0 <= j < |ds| ==> PriceAtMost(ds[j], budget)
    ensures WithinBudget(ds, budget) == ds
  {
    if ds != [] {
      WithinBudgetKeepsAll(ds[1..], budget);
    }
  }

  /** No listing of the catalog is over budget, so the final filter keeps all three. */
  lemma CatalogWithinBudget(budget: int, sites: seq<string>)
    ensures WithinBudget(Catalog(budget, sites), budget) == Catalog(budget, sites)
  {
    var c := Catalog(budget, sites);
    forall j | 0 <= j < 3 ensures PriceAtMost(c[j], budget) {
      SeedLookups(j, budget, sites);
    }
    WithinBudgetKeepsAll(c, budget);
  }

  /** What each listing holds: its title, its capped price, its positional site and its fallback-rule link. */
  lemma CatalogListing(budget: int, sites: seq<string>, j: nat)
    requires j < 3
    ensures Get(Catalog(budget, sites)[j], "title") == Some(JString(Titles[j]))
    ensures Get(Catalog(budget, sites)[j], "price") == Some(JInt(Min(budget, BasePrices[j])))
    ensures Get(Catalog(budget, sites)[j], "site") == Some(JString(SiteFor(sites, j)))
    ensures Get(Catalog(budget, sites)[j], "url") == Some(JString(DummyUrl(SiteFor(sites, j), Titles[j])))
  {
    SeedLookups(j, budget, sites);
  }

  /**
   * With a budget at or below the cheapest base price every listing is priced
   * at the budget itself, so no archetype is ever removed by the final filter.
   */
  lemma LowBudgetPriceIsBudget(budget: int, sites: seq<string>, j: nat)
    requires budget <= 1800 && j < 3
    ensures Get(Catalog(budget, sites)[j], "price") == Some(JInt(budget))
  {
    assert Min(budget, BasePrices[j]) == budget by {
      assert BasePrices[0] == 1800 && BasePrices[1] == 2500 && BasePrices[2] == 2200;
    }
    CatalogListing(budget, sites, j);
  }

  /** Each listing's price, read back as `float(p["price"])`, is within budget. */
  lemma CatalogPriceWithinBudget(budget: int, sites: seq<string>, j: nat)
    requires j < 3
    ensures CoercePrice(JObject(Catalog(budget, sites)[j]), budget) <= budget as real
  {
    CatalogListing(budget, sites, j);
    IntPriceCoerces(Catalog(budget, sites)[j], budget, Min(budget, BasePrices[j]));
  }

  /** `float()` reads an integer price back as itself. */
  lemma IntPriceCoerces(d: Dict, budget: int, x: int)
    requires Get(d, "price") == Some(JInt(x))
    ensures CoercePrice(JObject(d), budget) == x as real
  {
    assert FloatOf(JInt(x)) == Some(x as real);
  }

  /** Every listing of the catalog is within budget. */
  lemma CatalogPricesWithinBudget(budget: int, sites: seq<string>)
    ensures forall q :: q in Catalog(budget, sites) ==> CoercePrice(JObject(q), budget) <= budget as real
  {
    var c := Catalog(budget, sites);
    forall q | q in c ensures CoercePrice(JObject(q), budget) <= budget as real {
      var j :| 0 <= j < 3 && c[j] == q;
      CatalogPriceWithinBudget(budget, sites, j);
    }
  }

  /**
   * Builds the three dicts, sets each one's `url` in place, then keeps those
   * within budget; the final filter removes nothing.
   */
  method GenerateDummyProducts(budget: int, sites: seq<string>) returns (r: seq<Dict>)
    ensures r == Catalog(budget, sites)
    ensures |r| == 3
  {
    var products := seq(3, j requires 0 <= j < 3 => Seed(j, budget, sites));
    for i := 0 to 3
      invariant |products| == 3
      invariant forall j :: 0 <= j < i ==> products[j] == Listing(j, budget, sites)
      invariant forall j :: i <= j < 3 ==> products[j] == Seed(j, budget, sites)
    {
      var p := products[i];
      SeedLookups(i, budget, sites);
      var site := Lower(Get(p, "site").value.s);
      var title := Get(p, "title").value.s;
      products := products[i := Set(p, "url", JString(MarketUrl(DummyMarket(site), Quote(title))))];
    }
    assert products == Catalog(budget, sites);
    CatalogWithinBudget(budget, sites);
    r := WithinBudget(products, budget);
  }
}
