/**
 * The loop in `search_products_with_gemini` that keeps the candidates within
 * budget and gives each survivor its `url`.
 *
 * An exception raised while a survivor is annotated (a truthy `site` that is
 * not a string, a `title` that is not a string) leaves the loop and is caught
 * by the caller, which then shows the fallback catalog; `Raised` stands for it.
 */
module ProductFilter {
  import opened Common
  import opened PyText
  import opened JsonModel
  import opened UrlQuote
  import opened Marketplace
  import opened Price

  datatype FilterOutcome = Filtered(listings: seq<Dict>) | Raised

  /** `(p.get("site") or "").lower()`; None where `.lower()` raises on a truthy non-string. */
  function SiteText(fields: Dict): (r: Option<string>)
    ensures r.None? <==> Get(fields, "site").Some? && Truthy(Get(fields, "site").value) && !Get(fields, "site").value.JString?
  {
    match Get(fields, "site")
    case None => Some("")
    case Some(v) =>
      if !Truthy(v) then Some("")
      else if v.JString? then Some(Lower(v.s))
      else None
  }

  /** `p.get("title", "")` as `quote` accepts it; None where `quote` raises on a non-string. */
  function TitleText(fields: Dict): (r: Option<string>)
    ensures r.None? <==> Get(fields, "title").Some? && !Get(fields, "title").value.JString?
  {
    match Get(fields, "title")
    case None => Some("")
    case Some(v) => if v.JString? then Some(v.s) else None
  }

  /**
   * The survivor with its link: `p["url"] = url`, or None when computing the
   * link raises. Nothing but the `url` key changes, and the link is the search
   * rule applied to the candidate's site and title.
   */
  function Annotate(p: Json): (r: Option<Dict>)
    ensures r.Some? <==> p.JObject? && SiteText(p.fields).Some? && TitleText(p.fields).Some?
    ensures r.Some? ==> forall k :: k != "url" ==> Get(r.value, k) == Get(p.fields, k)
    ensures r.Some? ==>
      Get(r.value, "url") == Some(JString(MarketUrl(SearchMarket(SiteText(p.fields).value),
                                                    Quote(TitleText(p.fields).value))))
  {
    match p
    case JObject(fields) =>
      (match (SiteText(fields), TitleText(fields))
       case (Some(site), Some(title)) =>
         Some(Set(fields, "url", JString(MarketUrl(SearchMarket(site), Quote(title)))))
       case _ => None)
    case _ => None
  }

  /**
   * A string site gives the search rule's link for that site, whatever its
   * case; the empty site is falsy and stands for "" itself.
   */
  lemma AnnotateUrlIsSearchUrl(p: Json, site: string, title: string)
    requires p.JObject? && Get(p.fields, "site") == Some(JString(site))
    requires Get(p.fields, "title") == Some(JString(title))
    ensures Annotate(p).Some?
    ensures Get(Annotate(p).value, "url") == Some(JString(SearchUrl(site, title)))
  {
    var site' := Lower(site);
    if site == [] {
      assert site' == [];
    }
    assert SiteText(p.fields) == Some(site');
    LowerIdempotent(site);
    assert SearchUrl(site, title) == MarketUrl(SearchMarket(site'), Quote(title));
  }

  /** `[p for p in products if coerced price <= budget]`: the candidates that pass the budget test. */
  function Kept(products: seq<Json>, budget: int): seq<Json> {
    if products == [] then []
    else (if CoercePrice(products[0], budget) <= budget as real then [products[0]] else [])
         + Kept(products[1..], budget)
  }

  /** The kept candidates with their links, or `Raised` when some link cannot be computed. */
  function AnnotateAll(kept: seq<Json>): FilterOutcome {
    if forall j :: 0 <= j < |kept| ==> Annotate(kept[j]).Some? then
      Filtered(seq(|kept|, j requires 0 <= j < |kept| => Annotate(kept[j]).value))
    else
      Raised
  }

  /** The reference result of the loop. */
  function FilterSpec(products: seq<Json>, budget: int): FilterOutcome {
    AnnotateAll(Kept(products, budget))
  }

  /** Filtering a concatenation filters each part in turn: the input order is kept. */
  lemma {:induction false} KeptConcat(a: seq<Json>, b: seq<Json>, budget: int)
    ensures Kept(a + b, budget) == Kept(a, budget) + Kept(b, budget)
  {
    if a == [] {
      assert a + b == b;
    } else {
      var ab := a + b;
      assert ab[0] == a[0] && ab[1..] == a[1..] + b;
      KeptConcat(a[1..], b, budget);
      var head := if CoercePrice(a[0], budget) <= budget as real then [a[0]] else [];
      assert Kept(ab, budget) == head + Kept(a[1..] + b, budget);
      assert Kept(a, budget) == head + Kept(a[1..], budget);
    }
  }

  /** The kept candidates are exactly the input candidates within budget. */
  lemma {:induction false} KeptMembers(products: seq<Json>, budget: int)
    ensures forall p :: p in Kept(products, budget) <==> p in products && CoercePrice(p, budget) <= budget as real
  {
    if products != [] {
      KeptMembers(products[1..], budget);
      assert products == [products[0]] + products[1..];
    }
  }

  /** One more candidate extends the kept list by itself or by nothing. */
  lemma KeptStep(products: seq<Json>, i: nat, budget: int)
    requires i < |products|
    ensures Kept(products[..i + 1], budget)
         == Kept(products[..i], budget)
            + (if CoercePrice(products[i], budget) <= budget as real then [products[i]] else [])
  {
    KeptConcat(products[..i], [products[i]], budget);
    assert products[..i + 1] == products[..i] + [products[i]];
    assert [products[i]][1..] == [];
  }

  /** A candidate within budget whose link cannot be computed makes the loop raise. */
  lemma RaisesAt(products: seq<Json>, i: nat, budget: int)
    requires i < |products|
    requires CoercePrice(products[i], budget) <= budget as real && Annotate(products[i]).None?
    ensures FilterSpec(products, budget) == Raised
  {
    FilterRaisesIff(products, budget);
    assert products[i] in products;
  }

  /**
   * The filtering loop: walks the candidates in order, appends each one within
   * budget after setting its `url`, and stops with `Raised` when a link cannot
   * be computed.
   */
  method FilterCandidates(products: seq<Json>, budget: int) returns (r: FilterOutcome)
    ensures r == FilterSpec(products, budget)
  {
    var filtered: seq<Dict> := [];
    var i := 0;
    while i < |products|
      invariant 0 <= i <= |products|
      invariant var kept := Kept(products[..i], budget);
        && |filtered| == |kept|
        && forall j :: 0 <= j < |kept| ==> Annotate(kept[j]).Some? && filtered[j] == Annotate(kept[j]).value
    {
      var p := products[i];
      KeptStep(products, i, budget);
      var priceVal := CoercePrice(p, budget);
      if priceVal <= budget as real {
        var annotated := Annotate(p);
        if annotated.None? {
          RaisesAt(products, i, budget);
          return Raised;
        }
        filtered := filtered + [annotated.value];
      }
      i := i + 1;
    }
    assert products[..i] == products;
    return Filtered(filtered);
  }

  /** Every listing the loop returns is within budget: adding `url` leaves the price alone. */
  lemma FilteredWithinBudget(products: seq<Json>, budget: int)
    requires FilterSpec(products, budget).Filtered?
    ensures forall q :: q in FilterSpec(products, budget).listings ==> CoercePrice(JObject(q), budget) <= budget as real
  {
    var kept := Kept(products, budget);
    var l := FilterSpec(products, budget).listings;
    KeptMembers(products, budget);
    forall q | q in l ensures CoercePrice(JObject(q), budget) <= budget as real {
      var j :| 0 <= j < |l| && l[j] == q;
      assert kept[j] in kept;
      assert Get(q, "price") == Get(kept[j].fields, "price");
    }
  }

  /** The loop raises exactly when some candidate within budget has a link that cannot be computed. */
  lemma FilterRaisesIff(products: seq<Json>, budget: int)
    ensures FilterSpec(products, budget).Raised? <==>
      exists p :: p in products && CoercePrice(p, budget) <= budget as real && Annotate(p).None?
  {
    var kept := Kept(products, budget);
    KeptMembers(products, budget);
    if FilterSpec(products, budget).Raised? {
      var j :| 0 <= j < |kept| && Annotate(kept[j]).None?;
      assert kept[j] in kept;
    }
  }

  /** A list element that is not a dict is dropped silently: it neither survives nor raises. */
  lemma NonObjectDropped(a: seq<Json>, p: Json, b: seq<Json>, budget: int)
    requires !p.JObject?
    ensures FilterSpec(a + [p] + b, budget) == FilterSpec(a + b, budget)
  {
    KeptConcat(a + [p], b, budget);
    KeptConcat(a, [p], budget);
    KeptConcat(a, b, budget);
    assert Kept([p], budget) == [] by {
      assert [p][1..] == [];
    }
    assert Kept(a + [p] + b, budget) == Kept(a + b, budget);
  }
}
