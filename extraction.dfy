/**
 * What one fetched page yields: the decision both counters take on the body
 * of a response, and the tokens of its embedded article text.
 */
module Extract {
  import opened Wrappers
  import opened JavaText

  /** The text a throttled response carries. */
  const RateLimitMarker: string := "999 Unable to process request at this time"

  /** Reading a JSON document and looking up its `articleBody` field. */
  datatype JsonField = Malformed | Missing | Present(text: string)

  /**
   * The HTML and JSON libraries, as functions: the text of the first
   * `script[type=application/ld+json]` element of a page, if any, and the
   * `articleBody` field of a JSON text.
   */
  datatype Parsers = Parsers(firstLdJsonScript: string -> Option<string>, articleBody: string -> JsonField)

  /** Tokens, possibly none, or the rate-limit signal (`Error999Exception` or `RuntimeException("Error 999")`). */
  datatype Extraction = Words(tokens: seq<string>) | RateLimited

  /** The article text a page carries, when it carries one. */
  function ArticleText(html: string, parsers: Parsers): Option<string>
  {
    match parsers.firstLdJsonScript(html)
    case None => None
    case Some(script) =>
      match parsers.articleBody(script)
      case Present(text) => Some(text)
      case _ => None
  }

  /**
   * `processHtml`: a missing body yields nothing; the marker anywhere in the
   * body is the rate-limit signal, checked before the script is looked at;
   * no script, unreadable JSON or no `articleBody` yield nothing; otherwise
   * the article text split on whitespace runs.
   */
  function ProcessHtml(html: Option<string>, parsers: Parsers): (r: Extraction)
    ensures r.RateLimited? <==> html.Some? && Contains(html.value, RateLimitMarker)
    ensures r.Words? ==> forall i :: 0 <= i < |r.tokens| ==> NoSpace(r.tokens[i])
    ensures r.Words? ==>
      if html.Some? && ArticleText(html.value, parsers).Some? then
        var text := ArticleText(html.value, parsers).value;
        r.tokens == SplitOnWhitespace(text) && Concat(r.tokens) == NonSpace(text)
      else
        r.tokens == []
  {
    match html
    case None => Words([])
    case Some(body) =>
      if Contains(body, RateLimitMarker) then RateLimited
      else
        match parsers.firstLdJsonScript(body)
        case None => Words([])
        case Some(script) =>
          match parsers.articleBody(script)
          case Malformed => Words([])
          case Missing => Words([])
          case Present(text) => SplitKeepsText(text); Words(SplitOnWhitespace(text))
  }

  /** The marker wins over everything that follows it, a missing script included. */
  lemma MarkerComesFirst(body: string, parsers: Parsers)
    requires Contains(body, RateLimitMarker)
    ensures ProcessHtml(Some(body), parsers) == RateLimited
  {
  }
}
