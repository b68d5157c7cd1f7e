/**
 * What the QR-code components encode and the names of the files they download.
 *
 * A customer's reward-claim code reads `claim://<cardId>/<userId>`; a card's stamp
 * code reads `stamp://<cardId>`. The stamp code can be downloaded as a bare image
 * named after a slug of the shop name, or as a poster with the card's details.
 */
module QrCodes {
  import opened Common
  import opened Text

  const ClaimScheme: string := "claim://"
  const StampScheme: string := "stamp://"

  /** The text of a reward-claim code. */
  function ClaimPayload(cardId: string, userId: string): (p: string)
    ensures |p| == 9 + |cardId| + |userId|
    ensures StartsWith(p, ClaimScheme) && p[8..] == cardId + "/" + userId
  {
    ClaimScheme + cardId + "/" + userId
  }

  /** The text of a stamp code. */
  function StampPayload(stampCardId: string): (p: string)
    ensures |p| == 8 + |stampCardId|
    ensures StartsWith(p, StampScheme) && p[8..] == stampCardId
  {
    StampScheme + stampCardId
  }

  /** The two schemes differ in their first character, so no text has both prefixes. */
  lemma SchemesExclusive(text: string)
    ensures !(StartsWith(text, ClaimScheme) && StartsWith(text, StampScheme))
  {
  }

  // ---------------------------------------------------------------------------
  // Download names
  // ---------------------------------------------------------------------------

  /** The poster's file name: the shop name followed by `_スタンプカード_QR.png`. */
  function PosterFilename(shopName: string): (name: string)
    ensures |name| == |shopName| + 15
    ensures name[..|shopName|] == shopName && name[|shopName|..] == "_スタンプカード_QR.png"
  {
    shopName + "_スタンプカード_QR.png"
  }

  /** `shopName.replace(/\s+/g, '-').toLowerCase()`. */
  function Slug(shopName: string): (slug: string)
    ensures forall i :: 0 <= i < |slug| ==> !IsWhitespace(slug[i])
  {
    var dashed := DashWhitespace(shopName);
    DashedHasNoWhitespace(shopName);
    forall i | 0 <= i < |dashed| ensures !IsWhitespace(LowerChar(dashed[i])) {
      LowerKeepsWhitespace(dashed[i]);
    }
    Lower(dashed)
  }

  /** Making a slug of a slug changes nothing. */
  lemma SlugIdempotent(shopName: string)
    ensures Slug(Slug(shopName)) == Slug(shopName)
  {
    var slug := Slug(shopName);
    DashWithoutWhitespace(slug);
    assert slug == Lower(DashWhitespace(shopName));
    LowerIdempotent(DashWhitespace(shopName));
  }

  /** A shop name of lower-case letters without white space is its own slug. */
  lemma SlugOfPlainName(shopName: string)
    requires forall i :: 0 <= i < |shopName| ==> !IsWhitespace(shopName[i]) && !('A' <= shopName[i] <= 'Z')
    ensures Slug(shopName) == shopName
  {
    DashWithoutWhitespace(shopName);
  }

  /** The stamp code's file name: `stamp-qr-<slug>.png`. */
  function StampImageFilename(shopName: string): (name: string)
    ensures |name| == |Slug(shopName)| + 13
    ensures name[..9] == "stamp-qr-" && name[|name| - 4..] == ".png"
    ensures forall i :: 0 <= i < |name| ==> !IsWhitespace(name[i])
  {
    "stamp-qr-" + Slug(shopName) + ".png"
  }

  /** A download: the file name and the image data it is taken from. */
  datatype Download = Download(filename: string, href: string)

  /** The stamp code's download button: nothing happens until the image data exists (an empty string counts as none). */
  function StampImageDownload(qrUrl: Option<string>, shopName: string): (d: Option<Download>)
    ensures d.Some? <==> qrUrl.Some? && qrUrl.value != ""
    ensures d.Some? ==> d.value == Download(StampImageFilename(shopName), qrUrl.value)
  {
    if qrUrl.Some? && qrUrl.value != "" then Some(Download(StampImageFilename(shopName), qrUrl.value)) else None
  }

  /**
   * The poster's download button: nothing happens without the code's image data,
   * the canvas or its drawing context. The image data drawn is left out.
   */
  function PosterDownload(qrCodeUrl: string, hasCanvas: bool, hasContext: bool, shopName: string): (name: Option<string>)
    ensures name.Some? <==> qrCodeUrl != "" && hasCanvas && hasContext
    ensures name.Some? ==> name.value == PosterFilename(shopName)
  {
    if qrCodeUrl == "" || !hasCanvas || !hasContext then None else Some(PosterFilename(shopName))
  }
}
