/**
 * The first step of `data_url_to_image`: `data_url.split(",", 1)` unpacked
 * into a header and an encoded payload. Splitting happens at the FIRST comma
 * only, so commas inside the payload are kept; a URL with no comma yields a
 * one-element list, and unpacking it into two names raises `ValueError`.
 * The base64 decoding and image opening that follow are library calls and
 * are not part of this model.
 */
module DataUrls {

  datatype SplitResult = Split(header: string, encoded: string) | MissingComma

  /** `split(",", 1)` unpacked into two parts. */
  function SplitDataUrl(url: string): SplitResult
  {
    if url == [] then MissingComma
    else if url[0] == ',' then Split([], url[1..])
    else match SplitDataUrl(url[1..])
      case MissingComma => MissingComma
      case Split(header, encoded) => Split([url[0]] + header, encoded)
  }

  /** The split fails exactly when the URL has no comma. */
  lemma {:induction false} SplitFailsIffNoComma(url: string)
    ensures SplitDataUrl(url).MissingComma? <==> ',' !in url
  {
    if url != [] && url[0] != ',' {
      SplitFailsIffNoComma(url[1..]);
      assert url == [url[0]] + url[1..];
    }
  }

  /**
   * The split is at the first comma: the header has no comma, and the header,
   * a comma and the payload make up the whole URL, so nothing after the
   * first comma is lost.
   */
  lemma {:induction false} SplitDataUrlParts(url: string)
    requires SplitDataUrl(url).Split?
    ensures var r := SplitDataUrl(url);
      url == r.header + "," + r.encoded && ',' !in r.header
  {
    if url[0] != ',' {
      SplitDataUrlParts(url[1..]);
    }
  }

  /** Joining a comma-free header and any payload with a comma splits back into the same two parts. */
  lemma {:induction false} SplitJoin(header: string, encoded: string)
    requires ',' !in header
    ensures SplitDataUrl(header + "," + encoded) == Split(header, encoded)
  {
    if header != [] {
      assert (header + "," + encoded)[1..] == header[1..] + "," + encoded;
      SplitJoin(header[1..], encoded);
    }
  }
}
