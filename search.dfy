/**
 * `search_products_with_gemini`: the precondition on the user's input, the
 * flattening of image tags into the description sent to the model, and the
 * dispatch on what comes back — a filtered list, an empty list, or the
 * fallback catalog.
 */
module ProductSearch {
  import opened Common
  import opened PyText
  import opened JsonModel
  import opened Extraction
  import opened Price
  import opened ProductFilter
  import opened DummyCatalog

  /** The banner that accompanies a result, if any. */
  datatype Notice = NoNotice | DesignMissing | NoProducts | ParseError | SearchError

  /** What the model is asked for: the combined description, the user's filters, the budget and the sites. */
  datatype Prompt = Prompt(description: string, filters: string, budget: int, sites: seq<string>)

  /** The model call, from the prompt it is given to the reply or failure it produces. */
  type Model = Prompt -> Reply

  /** `not outfit_text.strip() and not image_tags`: an absent or empty tag dict is falsy. */
  predicate NoSearchInput(outfitText: string, imageTags: Option<Dict>) {
    Strip(outfitText) == [] && (imageTags.None? || imageTags.value == [])
  }

  /**
   * `str(v)` for the values a tag dict holds. Floats, lists and dicts are
   * rendered by `other`, which stands for Python's `repr` of those values.
   */
  function Render(v: Json, other: Json -> string): string {
    match v
    case JNull => "None"
    case JBool(b) => if b then "True" else "False"
    case JInt(i) => IntToDecimal(i)
    case JString(s) => s
    case _ => other(v)
  }

  /** The `f"{k}: {v}"` text of one tag. */
  function Entry(tag: (string, Json), other: Json -> string): string {
    tag.0 + ": " + Render(tag.1, other)
  }

  /** The entries of the tags whose value is truthy, in insertion order. */
  function TagEntries(tags: Dict, other: Json -> string): (r: seq<string>)
    ensures |r| <= |tags|
  {
    if tags == [] then []
    else (if Truthy(tags[0].1) then [Entry(tags[0], other)] else []) + TagEntries(tags[1..], other)
  }

  /** `sep.join(parts)`. */
  function Join(sep: string, parts: seq<string>): (r: string)
    ensures parts == [] ==> r == []
    ensures |parts| == 1 ==> r == parts[0]
  {
    if parts == [] then []
    else if |parts| == 1 then parts[0]
    else parts[0] + sep + Join(sep, parts[1..])
  }

  /** Joining two non-empty runs of parts puts one separator between their joins. */
  lemma {:induction false} JoinConcat(sep: string, a: seq<string>, b: seq<string>)
    requires a != [] && b != []
    ensures Join(sep, a + b) == Join(sep, a) + sep + Join(sep, b)
  {
    var ab := a + b;
    assert ab[0] == a[0] && ab[1..] == a[1..] + b;
    if |a| == 1 {
      assert ab[1..] == b;
    } else {
      JoinConcat(sep, a[1..], b);
    }
  }

  /** The description sent to the model: the outfit text, then the flattened tags when the tag dict is non-empty. */
  function CombinedDescription(outfitText: string, imageTags: Option<Dict>, other: Json -> string): (r: string)
    ensures |outfitText| <= |r| && r[..|outfitText|] == outfitText
    ensures imageTags.None? || imageTags.value == [] ==> r == outfitText
  {
    if imageTags.Some? && imageTags.value != [] then
      outfitText + "\nImage tags: " + Join(", ", TagEntries(imageTags.value, other))
    else outfitText
  }

  /** What the search makes of a list of candidates: the filtered list, or the catalog when the loop raises. */
  function Listings(items: seq<Json>, budget: int, sites: seq<string>): (r: (seq<Dict>, Notice))
    ensures r.1 == NoNotice || r.1 == SearchError
    ensures r.1 == SearchError <==> FilterSpec(items, budget).Raised?
    ensures r.1 == SearchError ==> r.0 == Catalog(budget, sites)
    ensures FilterSpec(items, budget).Filtered? ==> r == (FilterSpec(items, budget).listings, NoNotice)
  {
    match FilterSpec(items, budget)
    case Filtered(listings) => (listings, NoNotice)
    case Raised => (Catalog(budget, sites), SearchError)
  }

  /** The parse is a non-empty list on which the filter loop runs to the end. */
  predicate SucceedsOn(parsed: Option<Json>, budget: int) {
    parsed.Some? && parsed.value.JArray? && parsed.value.items != [] && FilterSpec(parsed.value.items, budget).Filtered?
  }

  /** What the search makes of the parse of the extracted span. */
  function RespondToParse(parsed: Option<Json>, budget: int, sites: seq<string>): (r: (seq<Dict>, Notice))
    ensures r.1 != DesignMissing
    ensures r.1 == ParseError <==> parsed.None?
    ensures r.1 == NoProducts <==> parsed.Some? && !(parsed.value.JArray? && parsed.value.items != [])
    ensures r.1 == NoProducts ==> r.0 == []
    ensures r.1 == ParseError || r.1 == SearchError ==> r.0 == Catalog(budget, sites)
    ensures parsed.Some? && parsed.value.JArray? && parsed.value.items != [] ==> r == Listings(parsed.value.items, budget, sites)
  {
    match parsed
    case None => (Catalog(budget, sites), ParseError)
    case Some(JArray(items)) => if |items| > 0 then Listings(items, budget, sites) else ([], NoProducts)
    case Some(_) => ([], NoProducts)
  }

  /** What the search makes of the model's reply: the filtered list, an empty list, or the catalog. */
  function Respond(reply: Reply, budget: int, sites: seq<string>, parse: Parser): (r: (seq<Dict>, Notice))
    ensures r.1 != DesignMissing
    ensures reply.CallFailed? ==> r == (Catalog(budget, sites), SearchError)
    ensures r.1 == NoProducts ==> r.0 == []
    ensures r.1 == ParseError || r.1 == SearchError ==> r.0 == Catalog(budget, sites)
    ensures r.1 == NoNotice <==> reply.Replied? && SucceedsOn(parse(ProductPayload(reply.text)), budget)
    ensures r.1 == NoNotice ==> r.0 == FilterSpec(parse(ProductPayload(reply.text)).value.items, budget).listings
  {
    if reply.CallFailed? then (Catalog(budget, sites), SearchError)
    else RespondToParse(parse(ProductPayload(reply.text)), budget, sites)
  }

  /** The result of a search and its banner: nothing without input, else the response to the model's reply. */
  function SearchSpec(outfitText: string, searchText: string, budget: int, sites: seq<string>,
                      imageTags: Option<Dict>, other: Json -> string, model: Model, parse: Parser)
    : (r: (seq<Dict>, Notice))
    ensures r.1 == DesignMissing <==> NoSearchInput(outfitText, imageTags)
    ensures r.1 == DesignMissing || r.1 == NoProducts ==> r.0 == []
    ensures r.1 == ParseError || r.1 == SearchError ==> r.0 == Catalog(budget, sites)
  {
    if NoSearchInput(outfitText, imageTags) then ([], DesignMissing)
    else Respond(model(Prompt(CombinedDescription(outfitText, imageTags, other), searchText, budget, sites)), budget, sites, parse)
  }

  /** Filters a non-empty candidate list; a raise inside the loop falls back to the catalog. */
  method FilterOrFallback(items: seq<Json>, budget: int, sites: seq<string>)
    returns (listings: seq<Dict>, notice: Notice)
    ensures (listings, notice) == Listings(items, budget, sites)
  {
    var outcome := FilterCandidates(items, budget);
    if outcome.Raised? {
      listings := GenerateDummyProducts(budget, sites);
      notice := SearchError;
    } else {
      listings, notice := outcome.listings, NoNotice;
    }
  }

  /** Dispatches on the parse: a failure gives the catalog, a non-empty list is filtered, anything else gives nothing. */
  method HandleParse(parsed: Option<Json>, budget: int, sites: seq<string>)
    returns (listings: seq<Dict>, notice: Notice)
    ensures (listings, notice) == RespondToParse(parsed, budget, sites)
  {
    if parsed.None? {
      listings := GenerateDummyProducts(budget, sites);
      return listings, ParseError;
    }
    if parsed.value.JArray? && |parsed.value.items| > 0 {
      listings, notice := FilterOrFallback(parsed.value.items, budget, sites);
    } else {
      listings, notice := [], NoProducts;
    }
  }

  /** Extracts and parses the array in the reply; a failed call falls back to the catalog. */
  method HandleReply(reply: Reply, budget: int, sites: seq<string>, parse: Parser)
    returns (listings: seq<Dict>, notice: Notice)
    ensures (listings, notice) == Respond(reply, budget, sites, parse)
  {
    if reply.CallFailed? {
      listings := GenerateDummyProducts(budget, sites);
      return listings, SearchError;
    }
    listings, notice := HandleParse(parse(ProductPayload(reply.text)), budget, sites);
  }

  /** Checks the input, builds the description, asks the model and handles its reply. */
  method SearchProducts(outfitText: string, searchText: string, budget: int, sites: seq<string>,
                        imageTags: Option<Dict>, other: Json -> string, model: Model, parse: Parser)
    returns (listings: seq<Dict>, notice: Notice)
    ensures (listings, notice) == SearchSpec(outfitText, searchText, budget, sites, imageTags, other, model, parse)
  {
    if NoSearchInput(outfitText, imageTags) {
      return [], DesignMissing;
    }
    var combined := CombinedDescription(outfitText, imageTags, other);
    var reply := model(Prompt(combined, searchText, budget, sites));
    listings, notice := HandleReply(reply, budget, sites, parse);
  }

  /** Tags are flattened part by part: the order of insertion is kept. */
  lemma {:induction false} TagEntriesConcat(a: Dict, b: Dict, other: Json -> string)
    ensures TagEntries(a + b, other) == TagEntries(a, other) + TagEntries(b, other)
  {
    if a == [] {
      assert a + b == b;
    } else {
      var ab := a + b;
      assert ab[0] == a[0] && ab[1..] == a[1..] + b;
      TagEntriesConcat(a[1..], b, other);
      var head := if Truthy(a[0].1) then [Entry(a[0], other)] else [];
      assert TagEntries(ab, other) == head + TagEntries(a[1..] + b, other);
      assert TagEntries(a, other) == head + TagEntries(a[1..], other);
    }
  }

  /** A tag whose value is falsy contributes nothing to the description. */
  lemma FalsyTagDropped(a: Dict, tag: (string, Json), b: Dict, other: Json -> string)
    requires !Truthy(tag.1)
    ensures TagEntries(a + [tag] + b, other) == TagEntries(a + b, other)
  {
    TagEntriesConcat(a + [tag], b, other);
    TagEntriesConcat(a, [tag], other);
    TagEntriesConcat(a, b, other);
  }

  /** An entry is in the flattened list exactly when it is the text of some tag with a truthy value. */
  lemma {:induction false} TagEntriesMembers(tags: Dict, other: Json -> string)
    ensures forall e :: e in TagEntries(tags, other) <==>
      exists i :: 0 <= i < |tags| && Truthy(tags[i].1) && e == Entry(tags[i], other)
  {
    if tags != [] {
      TagEntriesMembers(tags[1..], other);
      forall e | e in TagEntries(tags, other)
        ensures exists i :: 0 <= i < |tags| && Truthy(tags[i].1) && e == Entry(tags[i], other)
      {
        if e in TagEntries(tags[1..], other) {
          var i :| 0 <= i < |tags[1..]| && Truthy(tags[1..][i].1) && e == Entry(tags[1..][i], other);
          assert tags[i + 1] == tags[1..][i];
        }
      }
      forall e, i | 0 <= i < |tags| && Truthy(tags[i].1) && e == Entry(tags[i], other)
        ensures e in TagEntries(tags, other)
      {
        if i > 0 {
          assert tags[1..][i - 1] == tags[i];
        }
      }
    }
  }

  /**
   * A non-empty tag dict whose values are all falsy still adds the heading:
   * the test is on the dict, not on what survives the flattening.
   */
  lemma HeadingWithoutEntries(outfitText: string, tags: Dict, other: Json -> string)
    requires tags != []
    requires forall i :: 0 <= i < |tags| ==> !Truthy(tags[i].1)
    ensures CombinedDescription(outfitText, Some(tags), other) == outfitText + "\nImage tags: "
  {
    TagEntriesMembers(tags, other);
    assert TagEntries(tags, other) == [] by {
      if TagEntries(tags, other) != [] {
        assert TagEntries(tags, other)[0] in TagEntries(tags, other);
      }
    }
  }

  /** Every listing a search returns, filtered or from the catalog, is within budget. */
  lemma SearchWithinBudget(outfitText: string, searchText: string, budget: int, sites: seq<string>,
                           imageTags: Option<Dict>, other: Json -> string, model: Model, parse: Parser)
    ensures forall q :: (q in SearchSpec(outfitText, searchText, budget, sites, imageTags, other, model, parse).0
                         ==> CoercePrice(JObject(q), budget) <= budget as real)
  {
    var r := SearchSpec(outfitText, searchText, budget, sites, imageTags, other, model, parse);
    CatalogPricesWithinBudget(budget, sites);
    if r.1 == NoNotice {
      var reply := model(Prompt(CombinedDescription(outfitText, imageTags, other), searchText, budget, sites));
      var items := parse(ProductPayload(reply.text)).value.items;
      FilteredWithinBudget(items, budget);
    }
  }

  /** Without input the search returns nothing, whatever the model and the parser would have done: no call is made. */
  lemma NoInputNoCall(outfitText: string, searchText: string, budget: int, sites: seq<string>,
                      imageTags: Option<Dict>, other: Json -> string,
                      model: Model, parse: Parser, model': Model, parse': Parser)
    requires AllSpace(outfitText) && (imageTags.None? || imageTags.value == [])
    ensures SearchSpec(outfitText, searchText, budget, sites, imageTags, other, model, parse) == ([], DesignMissing)
    ensures SearchSpec(outfitText, searchText, budget, sites, imageTags, other, model', parse') == ([], DesignMissing)
  {
    StripEmptyIff(outfitText);
  }

  /**
   * The main path: with input, a reply whose span parses to a non-empty list
   * on which the filter loop runs to the end gives exactly the filtered
   * listings, with no banner.
   */
  lemma SuccessfulSearchReturnsFiltered(outfitText: string, searchText: string, budget: int, sites: seq<string>,
                                        imageTags: Option<Dict>, other: Json -> string, model: Model, parse: Parser,
                                        items: seq<Json>)
    requires !NoSearchInput(outfitText, imageTags)
    requires model(Prompt(CombinedDescription(outfitText, imageTags, other), searchText, budget, sites)).Replied?
    requires parse(ProductPayload(model(Prompt(CombinedDescription(outfitText, imageTags, other), searchText, budget, sites)).text))
             == Some(JArray(items))
    requires items != [] && FilterSpec(items, budget).Filtered?
    ensures SearchSpec(outfitText, searchText, budget, sites, imageTags, other, model, parse) == (FilterSpec(items, budget).listings, NoNotice)
  {
    var reply := model(Prompt(CombinedDescription(outfitText, imageTags, other), searchText, budget, sites));
    assert SucceedsOn(parse(ProductPayload(reply.text)), budget);
  }

  /** With input, a reply whose extracted span does not parse gives the catalog and a parse error. */
  lemma ParseFailureGivesCatalog(outfitText: string, searchText: string, budget: int, sites: seq<string>,
                                 imageTags: Option<Dict>, other: Json -> string, model: Model, parse: Parser)
    requires !NoSearchInput(outfitText, imageTags)
    requires model(Prompt(CombinedDescription(outfitText, imageTags, other), searchText, budget, sites)) == Replied(Some("[{\"title\": \"Saree\", \"pri"))
    requires parse(ProductPayload(Some("[{\"title\": \"Saree\", \"pri"))) == None
    ensures SearchSpec(outfitText, searchText, budget, sites, imageTags, other, model, parse) == (Catalog(budget, sites), ParseError)
  {
  }

  /** A parse to anything but a non-empty list gives an empty result, not the catalog. */
  lemma NonListGivesNothing(reply: Reply, budget: int, sites: seq<string>, parse: Parser)
    requires reply.Replied?
    requires parse(ProductPayload(reply.text)).Some?
    requires !parse(ProductPayload(reply.text)).value.JArray? || parse(ProductPayload(reply.text)).value.items == []
    ensures Respond(reply, budget, sites, parse) == ([], NoProducts)
  {
  }

  /** A parse leads to the catalog exactly when it failed, or it is a non-empty list on which the loop raises. */
  lemma ParseFallbackIff(parsed: Option<Json>, budget: int, sites: seq<string>)
    ensures var n := RespondToParse(parsed, budget, sites).1;
      (n == ParseError || n == SearchError) <==>
      (parsed.None? || (parsed.value.JArray? && parsed.value.items != [] && FilterSpec(parsed.value.items, budget).Raised?))
  {
    if parsed.Some? && parsed.value.JArray? && parsed.value.items != [] {
      assert RespondToParse(parsed, budget, sites) == Listings(parsed.value.items, budget, sites);
    }
  }

  /** The search falls back to the catalog exactly when the call fails, the span does not parse, or the loop raises. */
  lemma CatalogIff(reply: Reply, budget: int, sites: seq<string>, parse: Parser)
    ensures var n := Respond(reply, budget, sites, parse).1;
      (n == ParseError || n == SearchError) <==>
      (reply.CallFailed? ||
       (var parsed := parse(ProductPayload(reply.text));
        parsed.None? || (parsed.value.JArray? && parsed.value.items != [] && FilterSpec(parsed.value.items, budget).Raised?)))
  {
    if reply.Replied? {
      ParseFallbackIff(parse(ProductPayload(reply.text)), budget, sites);
    }
  }

  /** An empty outfit text with no tags gives an empty result and the design-missing banner. */
  lemma BlankSearchWithoutTags(model: Model, parse: Parser, other: Json -> string)
    ensures SearchSpec("", "", 2000, ["Amazon", "Myntra", "Ajio", "Flipkart"], None, other, model, parse) == ([], DesignMissing)
  {
  }

  /** The tags follow the heading in insertion order, and the one with an empty value is skipped. */
  lemma TagsFollowHeadingInOrder(other: Json -> string)
    ensures CombinedDescription("Saree", Some([("colors", JString("navy")), ("fabric", JString("")), ("garment_type", JString("saree"))]), other)
         == "Saree" + "\nImage tags: " + ("colors" + ": " + "navy") + ", " + ("garment_type" + ": " + "saree")
  {
    var t0, t1, t2 := ("colors", JString("navy")), ("fabric", JString("")), ("garment_type", JString("saree"));
    assert [t0, t1, t2] == [t0] + [t1] + [t2];
    TagEntriesConcat([t0] + [t1], [t2], other);
    TagEntriesConcat([t0], [t1], other);
    assert TagEntries([t0, t1, t2], other) == [Entry(t0, other), Entry(t2, other)];
    assert Entry(t0, other) == "colors" + ": " + "navy";
    assert Entry(t2, other) == "garment_type" + ": " + "saree";
    assert Join(", ", [Entry(t0, other), Entry(t2, other)]) == Entry(t0, other) + ", " + Entry(t2, other) by {
      assert [Entry(t0, other), Entry(t2, other)][1..] == [Entry(t2, other)];
    }
  }
}
