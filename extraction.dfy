/**
 * Pulling a JSON payload out of the model's free-form reply.
 *
 * Both helpers strip the reply and run a greedy, DOTALL regular-expression
 * search (`\{.*\}` for the tagger, `\[.*\]` for the product search): the match
 * starts at the leftmost opener that has a closer somewhere after it and ends
 * at the last closer. Without a match the whole stripped text goes to
 * `json.loads`, which is a parameter of the model (`parse`; `None` stands for
 * `JSONDecodeError`).
 */
module Extraction {
  import opened Common
  import opened PyText
  import opened JsonModel

  /** What came back from a Gemini call: an exception, or a response whose `.text` may be None. */
  datatype Reply = CallFailed | Replied(text: Option<string>)

  /** `json.loads`, left abstract: a value, or None for a decode error. */
  type Parser = string -> Option<Json>

  /** Some `open` stands before some `close` in `text`: the regular expression matches. */
  predicate HasSpan(text: string, open: char, close: char) {
    exists i, j :: 0 <= i < j < |text| && text[i] == open && text[j] == close
  }

  /**
   * Where the greedy search matches: from the first `open` to the last
   * `close`, exactly when some `open` precedes some `close`.
   */
  function SpanBounds(text: string, open: char, close: char): (r: Option<(nat, nat)>)
    ensures r.Some? <==> HasSpan(text, open, close)
    ensures r.Some? ==>
      var (i, j) := r.value;
      && i < j < |text| && text[i] == open && text[j] == close
      && (forall k :: 0 <= k < i ==> text[k] != open)
      && (forall k :: j < k < |text| ==> text[k] != close)
  {
    match (FirstIndex(text, open), LastIndex(text, close))
    case (Some(i), Some(j)) => if i < j then Some((i, j)) else None
    case _ => None
  }

  /** `match.group()` when the search matches, the text itself otherwise. */
  function ExtractSpan(text: string, open: char, close: char): (r: string)
    ensures !HasSpan(text, open, close) ==> r == text
    ensures HasSpan(text, open, close) ==> |r| >= 2 && r[0] == open && r[|r| - 1] == close
  {
    match SpanBounds(text, open, close)
    case Some((i, j)) => text[i..j + 1]
    case None => text
  }

  /**
   * The span is exactly the text from the first `open` to the last `close`,
   * whenever the first `open` comes before the last `close`.
   */
  lemma ExtractSpanIsFirstToLast(text: string, open: char, close: char, i: nat, j: nat)
    requires i < j < |text| && text[i] == open && text[j] == close
    requires forall k :: 0 <= k < i ==> text[k] != open
    requires forall k :: j < k < |text| ==> text[k] != close
    ensures ExtractSpan(text, open, close) == text[i..j + 1]
  {
    assert HasSpan(text, open, close);
    var (a, z) := SpanBounds(text, open, close).value;
    assert !(a < i) && !(i < a);
    assert !(z < j) && !(j < z);
  }

  /** The text `json.loads` receives in `extract_outfit_tags_from_image`. */
  function TagPayload(text: Option<string>): (r: string)
    ensures text.None? ==> r == []
    ensures HasSpan(Strip(text.GetOr("")), '{', '}') ==> |r| >= 2 && r[0] == '{' && r[|r| - 1] == '}'
    ensures !HasSpan(Strip(text.GetOr("")), '{', '}') ==> r == Strip(text.GetOr(""))
  {
    ExtractSpan(Strip(text.GetOr("")), '{', '}')
  }

  /** The text `json.loads` receives in `search_products_with_gemini`. */
  function ProductPayload(text: Option<string>): (r: string)
    ensures text.None? ==> r == []
    ensures HasSpan(Strip(text.GetOr("")), '[', ']') ==> |r| >= 2 && r[0] == '[' && r[|r| - 1] == ']'
    ensures !HasSpan(Strip(text.GetOr("")), '[', ']') ==> r == Strip(text.GetOr(""))
  {
    ExtractSpan(Strip(text.GetOr("")), '[', ']')
  }

  /** Whether the tagger reported an error to the user. */
  datatype TagNotice = TagsOk | TaggingError

  /** The tags a parse gives: the dict itself, `{}` for any other value, and an error for a decode failure. */
  function TagsOf(parsed: Option<Json>): (r: (Dict, TagNotice))
    ensures r.1 == TaggingError <==> parsed.None?
    ensures r.0 != [] ==> parsed == Some(JObject(r.0))
    ensures parsed.Some? && parsed.value.JObject? ==> r.0 == parsed.value.fields
  {
    match parsed
    case None => ([], TaggingError)
    case Some(JObject(fields)) => (fields, TagsOk)
    case Some(_) => ([], TagsOk)
  }

  /**
   * `extract_outfit_tags_from_image` once the vision call has answered: the
   * parsed value when it is a dict, `{}` otherwise; a failed call or a decode
   * error is reported.
   */
  function ExtractTags(reply: Reply, parse: Parser): (r: (Dict, TagNotice))
    ensures r.1 == TaggingError <==> reply.CallFailed? || parse(TagPayload(reply.text)).None?
    ensures r.0 != [] ==> reply.Replied? && parse(TagPayload(reply.text)) == Some(JObject(r.0))
    ensures reply.Replied? && parse(TagPayload(reply.text)).Some? && parse(TagPayload(reply.text)).value.JObject?
            ==> r.0 == parse(TagPayload(reply.text)).value.fields
  {
    match reply
    case CallFailed => ([], TaggingError)
    case Replied(text) => TagsOf(parse(TagPayload(text)))
  }

  /** Tags come back only when the reply is a dict; any other JSON value gives `{}` with no error. */
  lemma NonObjectGivesNoTags(parsed: Option<Json>)
    requires parsed.Some? && !parsed.value.JObject?
    ensures TagsOf(parsed) == ([], TagsOk)
  {
    var r := TagsOf(parsed);
    assert r.1 == TagsOk && r.0 == [];
  }

  /**
   * Whatever surrounds a bracketed payload is cut away, provided the text in
   * front holds no opener and the text behind holds no closer.
   */
  lemma SpanOfWrapped(pre: string, payload: string, post: string, open: char, close: char)
    requires |payload| >= 2 && payload[0] == open && payload[|payload| - 1] == close
    requires forall k :: 0 <= k < |pre| ==> pre[k] != open
    requires forall k :: 0 <= k < |post| ==> post[k] != close
    ensures ExtractSpan(pre + payload + post, open, close) == payload
  {
    var text := pre + payload + post;
    var a, z := |pre|, |pre| + |payload| - 1;
    assert text[a] == open && text[z] == close;
    var (i, j) := SpanBounds(text, open, close).value;
    assert i == a;
    assert j == z;
    assert text[a..z + 1] == payload;
  }

  /** Prose and a markdown fence around the object are cut away before parsing. */
  lemma FencedObjectPayload()
    ensures TagPayload(Some("Sure! ```json\n" + "{\"colors\":\"navy\",\"garment_type\":\"saree\"}" + "\n```"))
         == "{\"colors\":\"navy\",\"garment_type\":\"saree\"}"
  {
    var pre, payload, post := "Sure! ```json\n", "{\"colors\":\"navy\",\"garment_type\":\"saree\"}", "\n```";
    var raw := pre + payload + post;
    StripUnchanged(raw);
    SpanOfWrapped(pre, payload, post, '{', '}');
  }
}
