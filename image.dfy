/**
 * The test `generate_design_image` applies to the illustration service's
 * response before it hands the bytes on: a 200 status, more than 100 bytes,
 * and a JPEG or PNG signature at the start.
 */
module ImageCheck {
  import opened Common

  /** How the fetch ended: a timeout, some other failure, or a response. */
  datatype Fetch = TimedOut | FetchFailed | Response(status: int, content: seq<Byte>)

  /** The image bytes, or the reason there are none (each shown to the user as its own banner). */
  datatype ImageResult = Image(bytes: seq<Byte>) | InvalidData | HttpError(status: int) | Timeout | FetchError

  /** `content[:n]`: Python's slice stops at the end of a shorter sequence. */
  function Prefix(content: seq<Byte>, n: nat): (r: seq<Byte>)
    ensures |r| <= n && |r| <= |content| && r == content[..|r|]
    ensures |r| == n || r == content
  {
    if |content| <= n then content else content[..n]
  }

  const JpegMagic: seq<Byte> := [0xFF, 0xD8]
  const PngMagic: seq<Byte> := [0x89, 0x50, 0x4E, 0x47]

  /** The signature test as the code writes it, on slices of the body. */
  predicate LooksLikeImage(content: seq<Byte>) {
    Prefix(content, 2) == JpegMagic || Prefix(content, 4) == PngMagic
  }

  /** The signatures byte by byte: `FF D8` for JPEG, `89 'P' 'N' 'G'` for PNG. */
  predicate StartsJpeg(c: seq<Byte>) {
    |c| >= 2 && c[0] == 0xFF && c[1] == 0xD8
  }

  predicate StartsPng(c: seq<Byte>) {
    |c| >= 4 && c[0] == 0x89 && c[1] == 0x50 && c[2] == 0x4E && c[3] == 0x47
  }

  /** What the function returns for each way the fetch can end. */
  function AcceptImage(fetch: Fetch): (r: ImageResult)
    ensures r.Image? <==>
      fetch.Response? && fetch.status == 200 && |fetch.content| > 100 &&
      (StartsJpeg(fetch.content) || StartsPng(fetch.content))
    ensures r.Image? ==> r.bytes == fetch.content
    ensures r.HttpError? <==> fetch.Response? && fetch.status != 200
    ensures r.HttpError? ==> r.status == fetch.status
    ensures r == Timeout <==> fetch.TimedOut?
  {
    match fetch
    case TimedOut => Timeout
    case FetchFailed => FetchError
    case Response(status, content) =>
      LooksLikeImageIff(content);
      if status == 200 then
        if |content| > 100 && LooksLikeImage(content) then Image(content) else InvalidData
      else HttpError(status)
  }

  /** The slice test and the byte-by-byte test agree on every body. */
  lemma LooksLikeImageIff(content: seq<Byte>)
    ensures LooksLikeImage(content) <==> StartsJpeg(content) || StartsPng(content)
  {
    if |content| >= 2 {
      assert Prefix(content, 2) == [content[0], content[1]];
    }
    if |content| >= 4 {
      assert Prefix(content, 4) == [content[0], content[1], content[2], content[3]];
    }
  }

  /** A body of at most 100 bytes is rejected whatever it starts with. */
  lemma ShortBodyRejected(content: seq<Byte>)
    requires |content| <= 100
    ensures AcceptImage(Response(200, content)) == InvalidData
  {
  }

  /** A 200 response whose 5-byte body starts like a JPEG is still invalid data. */
  lemma FiveByteJpegStartRejected()
    ensures AcceptImage(Response(200, [0xFF, 0xD8, 0xFF, 0xE0, 0x00])) == InvalidData
  {
  }
}
