/**
 * The `extract-ingredients` route: the product name is lower-cased and
 * scanned with the ingredient lexicon, and the reply carries the ingredients
 * found and a message that depends on whether any were.
 */
module Extractor {
  import opened Seqs
  import opened Text
  import opened Optional
  import opened Lexicon
  import opened KeywordScan

  /** The ingredient list the route computes for a product name. */
  function Extraction(productName: string): seq<string> {
    Found(Mapping, Keywords, ToLower(productName))
  }

  /** The route's computation: lower-case the name, then scan it with the lexicon. */
  method ExtractIngredients(productName: string) returns (ingredients: seq<string>)
    ensures ingredients == Extraction(productName)
  {
    var productLower := ToLower(productName);
    ingredients := ScanKeywords(Mapping, Keywords, productLower);
  }

  // ---------------------------------------------------------------------------
  // Properties of the route's extraction

  /** Names that differ only in the case of ASCII letters give the same ingredients. */
  lemma ExtractionIgnoresCase(a: string, b: string)
    requires SameIgnoringCase(a, b)
    ensures Extraction(a) == Extraction(b)
  {
    ToLowerIdentifiesCase(a, b);
  }

  /**
   * The element symbols `mg`, `ca`, `fe` and `zn` are scanned but have no
   * canonical name: removing any of them from the keyword list changes no result.
   */
  lemma ElementSymbolsContributeNothing(productName: string, symbol: string, i: nat)
    requires symbol == "mg" || symbol == "ca" || symbol == "fe" || symbol == "zn"
    requires i < |Keywords| && Keywords[i] == symbol
    ensures Extraction(productName) == Found(Mapping, Keywords[..i] + Keywords[i + 1..], ToLower(productName))
  {
    ElementSymbolsUnmapped(symbol);
    UnmappedKeywordIgnored(Mapping, Keywords, ToLower(productName), i);
  }

  // ---------------------------------------------------------------------------
  // The route's reply

  const NotFoundMessage: string := "영양 성분을 찾을 수 없습니다. 제품명을 다시 확인해주세요."
  const FoundMessageSuffix: string := "개의 영양 성분을 찾았습니다."
  const ExtractionErrorMessage: string := "Internal server error during ingredient extraction"

  /** The `message` field of the reply. */
  function ReplyMessage(ingredients: seq<string>): (message: string)
    ensures message == NotFoundMessage <==> ingredients == []
    ensures ingredients != [] ==> message == Decimal(|ingredients|) + FoundMessageSuffix
    ensures ingredients != [] ==> DecimalValue(message[..|Decimal(|ingredients|)|]) == |ingredients|
  {
    if |ingredients| > 0 then
      var count := Decimal(|ingredients|);
      assert (count + FoundMessageSuffix)[..|count|] == count;
      DecimalRoundTrip(|ingredients|);
      assert IsDigit((count + FoundMessageSuffix)[0]);
      count + FoundMessageSuffix
    else NotFoundMessage
  }

  datatype ExtractReply =
    | Extracted(productName: string, ingredients: seq<string>, message: string)
    | ExtractFailed(status: int, error: string)

  /**
   * The route handler. `productName` is the request body's `productName` field,
   * `None` when the body is not JSON or the field is not a string; lower-casing
   * then throws and the handler answers 500.
   */
  method HandleExtractIngredients(productName: Option<string>) returns (reply: ExtractReply)
    ensures productName.None? ==> reply == ExtractFailed(500, ExtractionErrorMessage)
    ensures productName.Some? ==>
      reply.Extracted? && reply.productName == productName.value &&
      reply.ingredients == Extraction(productName.value) &&
      reply.message == ReplyMessage(reply.ingredients)
  {
    if productName.None? {
      return ExtractFailed(500, ExtractionErrorMessage);
    }
    var ingredients := ExtractIngredients(productName.value);
    reply := Extracted(productName.value, ingredients, ReplyMessage(ingredients));
  }
}
