# Paridhana response normalisation, modelled in Dafny

Paridhana is a Streamlit fashion-design assistant. It asks the Gemini model to
describe an outfit, to tag an uploaded photo, and to propose products from
Indian marketplaces, and it fetches an illustration from an image service.
None of these replies can be trusted. This project models the layer of
`app.py` that turns them into validated data:

- **span extraction**: the greedy `\{.*\}` / `\[.*\]` search over the stripped reply, then the parse of that span. The parse is a parameter standing for `json.loads`.
- **result dispatch** in the product search and in the image tagger.
- **the budget filter and URL derivation** loop, which coerces each candidate's price, keeps those within budget in order and adds a marketplace search link.
- **the fallback catalog** `generate_dummy_products`, with its own site rule.
- **the search precondition and tag flattening**, which build the description sent to the model.
- **the image-acceptance predicate** for the illustration service's response.

Modules:

| file | module | what it holds |
|---|---|---|
| `common.dfy` | `Common` | `Option`, `Byte` |
| `pytext.dfy` | `PyText` | Python's `str.strip`, `str.lower` (ASCII), `in` on strings, decimal rendering of integers |
| `json.dfy` | `JsonModel` | JSON values, and dicts as ordered key/value lists with `get` and item assignment |
| `quote.dfy` | `UrlQuote` | `urllib.parse.quote` with its default `safe='/'` over UTF-8 |
| `extraction.dfy` | `Extraction` | span extraction and the image tagger's result |
| `marketplace.dfy` | `Marketplace` | the two site-to-link rules and the five link templates |
| `price.dfy` | `Price` | `float(p.get("price", budget + 1))` and its fallback |
| `filter.dfy` | `ProductFilter` | the filtering loop, as a method proved against a reference function |
| `dummy.dfy` | `DummyCatalog` | `generate_dummy_products`, as a method proved against a reference function |
| `search.dfy` | `ProductSearch` | the precondition, tag flattening and dispatch of `search_products_with_gemini` |
| `image.dfy` | `ImageCheck` | the response check in `generate_design_image` |

## Behaviour worth knowing

- **Non-dict list element.** Such an element never sends the search to the fallback catalog. The failing `p.get` sits inside the inner `try` around the price coercion (`app.py:383-386`), so the price becomes `budget + 1` and the element is dropped (`ProductFilter.NonObjectDropped`). The loop falls back to the catalog only when a candidate within budget has a truthy non-string `site` (`.lower()` raises) or a non-string `title` (`quote` raises).
- **JPEG signature.** The signature test compares the two bytes `FF D8` (`app.py:473`). The comment above it (`app.py:471`) names the three-byte header `FF D8 FF`, so a body of more than 100 bytes starting `FF D8 00` is accepted.
- **No brace or bracket pair.** When the reply holds no span, the whole stripped text goes to the parser (`app.py:310-314`, `app.py:374-378`).
- **Low budgets and the catalog.** Every price is `min(budget, base)`, so the final filter at `app.py:452` never removes an archetype, whatever the budget (`DummyCatalog.LowBudgetPriceIsBudget`, `DummyCatalog.CatalogWithinBudget`).

## Model

| member | source | states |
|---|---|---|
| PyText.StripLeft | app.py:309 | the result is a suffix of the input, everything removed is whitespace, and the result does not start with whitespace |
| PyText.StripRight | app.py:309 | the result is a prefix of the input, everything removed is whitespace, and the result does not end with whitespace |
| PyText.StripEmptyIff | app.py:330 | `s.strip()` is empty exactly when every character of `s` is Python whitespace |
| PyText.Strip | app.py:309 | `s.strip()` is `s.lstrip()` followed by `s.rstrip()`; its contract is carried by the two halves and the lemmas below |
| PyText.StripUnchanged | app.py:309 | text that neither starts nor ends with whitespace is left as it is by `strip` |
| PyText.Lower | app.py:388 | lower-casing keeps the length |
| PyText.LowerIdempotent | app.py:388 | lower-casing twice is lower-casing once, and leaves no ASCII capital |
| PyText.SameIgnoringCaseLower | app.py:388 | two site names that differ only in ASCII case lower-case to the same text |
| PyText.ContainsIff | app.py:392-398 | the recursive `frag in s` holds exactly when `frag` occurs at some index of `s` |
| PyText.NatDigits | app.py:339 | the decimal rendering of a natural number is a non-empty run of digits |
| PyText.FirstIndex | app.py:310 | the index found holds the character and no earlier index does; none means the character is absent |
| PyText.LastIndex | app.py:310 | the index found holds the character and no later index does; none means the character is absent |
| JsonModel.Get | app.py:384 | `d.get(k)` finds a value exactly when the key is present, and the value is stored under that key |
| JsonModel.Set | app.py:402 | after `d[k] = v` the key reads `v`, every other key reads as before, an existing key keeps the size, and a new key is appended last |
| UrlQuote.Utf8 | app.py:390 | a character encodes to 1 to 4 bytes, one byte exactly for ASCII, and multi-byte encodings have no ASCII byte |
| UrlQuote.HexValue | app.py:390 | a hex digit's value is below 16 |
| UrlQuote.HexDigit | app.py:390 | the digit written for a value below 16 is a hex digit that reads back as that value |
| UrlQuote.QuoteByte | app.py:390 | a safe byte is kept as its character; any other byte becomes `%` and two hex digits |
| UrlQuote.QuoteBytes | app.py:390 | quoting produces only unreserved characters, `/`, `%` and hex digits: never `?`, `&`, `#`, `=` or whitespace |
| UrlQuote.Quote | app.py:390 | a quoted title is safe to splice into a link |
| UrlQuote.UnquoteQuoteByte | app.py:390 | decoding a quoted byte gives the byte back, whatever follows it |
| UrlQuote.UnquoteQuoteBytes | app.py:390 | decoding undoes quoting, byte for byte |
| UrlQuote.UnquoteQuote | app.py:390 | decoding a quoted title gives exactly its UTF-8 bytes, so no two titles share a query |
| UrlQuote.QuoteSafeIdentity | app.py:390 | a title made only of safe characters is its own quotation |
| Extraction.SpanBounds | app.py:310-311 | there is a span exactly when some opener has a closer after it; the span runs from the first opener to the last closer |
| Extraction.ExtractSpan | app.py:310-312 | without a span the text passes through unchanged; with one, the result starts with the opener and ends with the closer |
| Extraction.ExtractSpanIsFirstToLast | app.py:310-312 | when the first opener comes before the last closer, the parser receives exactly the text from that opener to that closer |
| Extraction.TagPayload | app.py:309-312 | the tagger parses the braced span of the stripped reply when there is one, the stripped reply itself otherwise, and the empty text for a missing reply |
| Extraction.ProductPayload | app.py:373-376 | the search parses the bracketed span of the stripped reply when there is one, the stripped reply itself otherwise, and the empty text for a missing reply |
| Extraction.TagsOf | app.py:314-317 | a decode failure is reported; a parsed dict is returned whole, and tags come from nothing else |
| Extraction.ExtractTags | app.py:309-320 | the tagger reports an error exactly when the call fails or the span does not parse; tags come only from a parsed dict, and a parsed dict is returned whole |
| Extraction.NonObjectGivesNoTags | app.py:315-317 | a parse that is not a dict gives no tags and no error |
| Extraction.SpanOfWrapped | app.py:310-312 | prose before the payload without an opener and prose after it without a closer are cut away exactly |
| Extraction.FencedObjectPayload | app.py:309-314 | a reply wrapped in prose and a markdown fence gives the parser exactly the object inside |
| Marketplace.SearchMarket | app.py:392-401 | a site containing `amazon` goes to Amazon, and the Google fallback is taken exactly when none of the four fragments occurs |
| Marketplace.DummyMarket | app.py:444-451 | the catalog's rule never gives Google; a site containing `amazon` goes to Amazon, and Flipkart is taken exactly when none of amazon, myntra, ajio occurs |
| Marketplace.MarketUrl | app.py:393-401 | every template ends with the quoted title, after a non-empty prefix |
| Marketplace.FirstMatchSpec | app.py:392-401 | a first-match rule list picks the first rule whose fragment occurs in the site, or the fallback when none does |
| Marketplace.SearchMarketIsFirstMatch | app.py:392-401 | the search rule tries amazon, myntra, ajio and flipkart in that order and falls back to Google |
| Marketplace.DummyMarketIsFirstMatch | app.py:444-451 | the catalog's rule tries only amazon, myntra and ajio, and falls back to Flipkart |
| Marketplace.DummyUrlVersusSearchUrl | app.py:392-451 | the two rules give the same link except where the search falls back to Google; there the catalog links to Flipkart |
| Marketplace.SearchUrlIgnoresCase | app.py:388 | the case of the site name never changes either link |
| Marketplace.MarketUrlHostKey | app.py:393-401 | each template names its marketplace's host right after `https://www.`, and every link is at least 23 characters long |
| Marketplace.MarketUrlQuery | app.py:393-401 | within one template, the link determines the quoted title, including Myntra's doubled query |
| Marketplace.MarketUrlInjective | app.py:393-401 | no two pairs of marketplace and quoted title give the same link |
| Price.ParseFloat | app.py:384 | blank text is not a number |
| Price.FloatOf | app.py:384 | `float()` accepts integers, floats, booleans and some strings, and rejects `None`, lists and dicts |
| Price.CoercePrice | app.py:384-387 | a coerced price within budget comes from a `price` key whose value `float()` accepts; a coercible price is used as is; a non-dict, a missing price or one `float()` rejects gives exactly `budget + 1` |
| Price.DigitsValueOfNat | app.py:384 | reading back the decimal digits of a natural number gives the number |
| Price.ParseUnsignedOfDigits | app.py:384 | an unsigned decimal numeral parses to its value |
| Price.DecimalUnstripped | app.py:384 | a rendered integer has no surrounding whitespace |
| Price.ParseFloatOfDecimal | app.py:384 | `float(str(i))` is `i` for every integer |
| Price.TextPriceRejected | app.py:384-387 | a candidate priced `"abc"` is never within budget |
| ProductFilter.SiteText | app.py:388 | the site text is unusable exactly when the `site` value is truthy and not a string, where `.lower()` raises |
| ProductFilter.TitleText | app.py:389-390 | the title is unusable exactly when a `title` value is present and not a string, where `quote` raises |
| ProductFilter.Annotate | app.py:388-402 | a candidate gets its link exactly when it is a dict with a usable site and title; no other key changes, and the link is the search rule applied to the lower-cased site and quoted title |
| ProductFilter.AnnotateUrlIsSearchUrl | app.py:388-402 | a candidate with a string site, empty or not, and a string title gets the search rule's link for that site and title |
| ProductFilter.Kept | app.py:382-387 | the candidates whose coerced price is within budget, in input order |
| ProductFilter.FilterSpec | app.py:381-406 | the reference result of the loop: the kept candidates with their links, or a raise when one link cannot be computed |
| ProductFilter.KeptConcat | app.py:382-387 | the budget test keeps the input order: filtering a concatenation filters each part in turn |
| ProductFilter.KeptMembers | app.py:382-387 | a candidate is kept exactly when it is in the input and its coerced price is within budget |
| ProductFilter.KeptStep | app.py:382-387 | one more candidate extends the kept list by itself or by nothing |
| ProductFilter.RaisesAt | app.py:387-390 | a kept candidate whose link cannot be computed makes the loop raise |
| ProductFilter.FilterCandidates | app.py:381-406 | the loop returns the kept candidates with their links, in order, or raises exactly as the reference result says |
| ProductFilter.FilteredWithinBudget | app.py:381-406 | every listing the loop returns has a price within budget |
| ProductFilter.FilterRaisesIff | app.py:382-402 | the loop raises exactly when some candidate within budget has a link that cannot be computed |
| ProductFilter.NonObjectDropped | app.py:383-387 | a list element that is not a dict changes nothing: it neither survives nor raises |
| DummyCatalog.WithinBudget | app.py:452 | the final filter never lengthens the list |
| DummyCatalog.WithinBudgetMembers | app.py:452 | a dict survives the final filter exactly when it is in the list and its price is within budget |
| DummyCatalog.Seed | app.py:421-437 | the literal dict `i`, before its link is set |
| DummyCatalog.Listing | app.py:439-451 | dict `i` with the catalog rule's link assigned to `url` |
| DummyCatalog.Catalog | app.py:420-452 | the reference result: the three listings in order, each with its link (its contents are stated by `CatalogListing`) |
| DummyCatalog.SeedLookups | app.py:421-437 | each literal dict holds its title, its price `min(budget, base)` and its positional site |
| DummyCatalog.WithinBudgetKeepsAll | app.py:452 | the final filter keeps a list whose prices are all within budget |
| DummyCatalog.CatalogWithinBudget | app.py:452 | the final filter removes nothing from the catalog |
| DummyCatalog.CatalogListing | app.py:421-451 | listing `j` holds title `j`, price `min(budget, base j)`, `sites[j]` or its default, and the catalog rule's link for that site and title |
| DummyCatalog.LowBudgetPriceIsBudget | app.py:421-437 | with a budget of at most 1800 every listing is priced at the budget itself |
| DummyCatalog.CatalogPriceWithinBudget | app.py:421-437 | each listing's price, read back by `float()`, is within budget |
| DummyCatalog.CatalogPricesWithinBudget | app.py:420-452 | every listing of the catalog is within budget |
| DummyCatalog.GenerateDummyProducts | app.py:420-452 | the method returns exactly the three listings of the catalog, in order, each with its link |
| ProductSearch.NoSearchInput | app.py:330 | the search has no input when the outfit text strips to nothing and the tag dict is absent or empty |
| ProductSearch.Render | app.py:339 | `str(v)` of `None`, a boolean, an integer and a string as Python writes them |
| ProductSearch.TagEntries | app.py:338-340 | there is at most one entry per tag |
| ProductSearch.JoinConcat | app.py:338 | joining two non-empty runs of entries puts exactly one separator between their joins |
| ProductSearch.CombinedDescription | app.py:336-341 | the description starts with the outfit text, and is that text alone when the tag dict is absent or empty |
| ProductSearch.Listings | app.py:380-417 | when the loop runs to the end the result is its filtered listings with no banner; the search-error banner, with the catalog, comes exactly when the loop raises |
| ProductSearch.RespondToParse | app.py:378-417 | the parse-error banner, with the catalog, comes exactly when the parse failed; the no-products banner, with nothing, exactly when the value is not a non-empty list; a non-empty list goes through the loop |
| ProductSearch.Respond | app.py:366-417 | a failed call gives the catalog with the search-error banner; the result has no banner exactly when the reply parses to a non-empty list on which the loop runs to the end, and it is then the filtered list |
| ProductSearch.SearchSpec | app.py:330-417 | the design-missing banner appears exactly when there is no input; empty results come with that banner or no-products, and both error banners come with the catalog |
| ProductSearch.FilterOrFallback | app.py:380-417 | the method gives the reference result for a non-empty candidate list |
| ProductSearch.HandleParse | app.py:378-417 | the method gives the reference result for a parse |
| ProductSearch.HandleReply | app.py:366-417 | the method gives the reference result for a reply |
| ProductSearch.SearchProducts | app.py:323-417 | the method gives the reference result of a search |
| ProductSearch.TagEntriesConcat | app.py:338-340 | tags are flattened in insertion order, part by part |
| ProductSearch.FalsyTagDropped | app.py:339 | a tag with a falsy value adds nothing to the description |
| ProductSearch.TagEntriesMembers | app.py:338-340 | an entry appears exactly when it is the `k: v` text of some tag with a truthy value |
| ProductSearch.HeadingWithoutEntries | app.py:337-341 | a non-empty tag dict whose values are all falsy still appends the `Image tags:` heading, with nothing after it |
| ProductSearch.SearchWithinBudget | app.py:323-452 | every listing a search returns, filtered or from the catalog, is within budget |
| ProductSearch.NoInputNoCall | app.py:330-332 | with blank outfit text and no tags the result is empty, whatever the model or the parser would have done |
| ProductSearch.SuccessfulSearchReturnsFiltered | app.py:330-406 | with input, a reply parsing to a non-empty list on which the loop runs to the end gives exactly the filtered listings, with no banner |
| ProductSearch.ParseFailureGivesCatalog | app.py:411-414 | a truncated reply that does not parse gives the catalog and a parse error |
| ProductSearch.NonListGivesNothing | app.py:380-409 | a parse to a non-list or an empty list gives an empty result, not the catalog |
| ProductSearch.ParseFallbackIff | app.py:378-417 | a parse leads to the catalog exactly when it failed, or is a non-empty list on which the loop raises |
| ProductSearch.CatalogIff | app.py:366-417 | the search falls back to the catalog exactly when the call fails, the span does not parse, or the loop raises |
| ProductSearch.BlankSearchWithoutTags | app.py:330-332 | an empty search with no tags returns nothing and shows the design-missing banner |
| ProductSearch.TagsFollowHeadingInOrder | app.py:336-341 | the truthy tags follow the heading in insertion order, and an empty tag is skipped |
| ImageCheck.Prefix | app.py:473 | a slice `content[:n]` is the first `n` bytes, or the whole body when it is shorter |
| ImageCheck.LooksLikeImage | app.py:473 | the signature test as written: the first two bytes are `FF D8`, or the first four are `89 50 4E 47` |
| ImageCheck.AcceptImage | app.py:467-488 | bytes are returned exactly for a 200 response of more than 100 bytes starting `FF D8` or `89 50 4E 47`; any other status is reported with its code, and a timeout as a timeout |
| ImageCheck.LooksLikeImageIff | app.py:473 | the slice comparisons agree with the byte-by-byte signature tests |
| ImageCheck.ShortBodyRejected | app.py:472-478 | a 200 response of at most 100 bytes is invalid data whatever it starts with |
| ImageCheck.FiveByteJpegStartRejected | app.py:472-478 | a 200 response whose 5-byte body starts like a JPEG is invalid data, not an image |

## Left out

- The Streamlit layout, CSS, background image and session state are not modelled: they are presentation code.
- The Gemini calls are not modelled. Each is an input: a `Reply` for the tagger, and a `Model` function from the prompt's contents to a `Reply` for the search. The prompt's wording is not modelled; its description, filters, budget and sites are.
- `json.loads` is a parameter from text to a JSON value or a decode failure. Dicts are ordered key/value lists, looked up by first occurrence; `json.loads` gives distinct keys.
- Price.CoercePrice: prices are exact rationals. Rounding to binary floating point is not modelled.
- Price.ParseFloat: `float()` on text is modelled as surrounding whitespace, an optional sign, ASCII digits and one decimal point with at least one digit. Python also reads other Unicode decimal digits (Devanagari, for instance), exponents, underscores, `inf` and `nan`; the model rejects them, so such a price becomes `budget + 1`.
- Price.FloatOf: `float()` of an integer is modelled as exact. Python raises `OverflowError` for integers of magnitude about 2^1024 and above, which the inner `try` turns into `budget + 1`. The model keeps such an integer, so a huge negative price is kept where the code drops the candidate.
- ProductSearch.RespondToParse: a parse fails in one way only, as a decode error with the parse-error banner. `json.loads` can also raise `RecursionError` on deeply nested text, or `ValueError` for an integer with too many digits. The code's second `except` reports those with the search-error banner; both paths show the catalog.
- PyText.Lower: `str.lower()` is modelled on ASCII letters only; other letters keep their case.
- UrlQuote.Quote: `quote` is modelled on Unicode scalar values. The encoding errors of lone surrogates are not modelled.
- ProductSearch.Render: `str()` of a float, list or dict tag value is a parameter, not Python's `repr`.
- The `st.error`, `st.warning` and `st.info` banners are modelled as a notice tag on the result. Their text is not modelled.
- `generate_design_text` is not modelled: it forwards a single model call.
- The illustration request and its URL are not modelled: `requests.get` is network I/O. Its outcome is the `Fetch` input.
- The in-place `p["url"] = url` on dicts is modelled on values. The parsed list is discarded after the loop, so no aliasing of those dicts is observable.
- `combined_description` is passed to `generate_dummy_products`, which does not use it, so the catalog takes only the budget and the sites.
