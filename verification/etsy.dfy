/** The Etsy Open API v3 client: the credential check, the listing title and
    tag normalisation, the listing payload, the translation of HTTP failures
    into messages, the image upload and the description escaping. */
module EtsyService {
  import opened Wrappers
  import opened Strings
  import opened Env
  import opened Http
  import opened DataUrl
  import HtmlEscape

  /** ETSY_API_KEY, ETSY_SHOP_ID and ETSY_ACCESS_TOKEN. */
  datatype EtsyEnv = EtsyEnv(apiKey: Option<string>, shopId: Option<string>, accessToken: Option<string>)

  /** Etsy taxonomy ids the application uses. */
  const TaxonomyClothingTshirt: int := 1964
  const TaxonomyAccessoriesMug: int := 1066
  const TaxonomyArtPoster: int := 1066
  const TaxonomyHomeDecor: int := 1063
  const TaxonomyAccessoriesBag: int := 1065
  const TaxonomyAccessoriesPhoneCase: int := 2093

  const MaxTitleLength: nat := 140
  const MaxTags: nat := 13
  const MaxTagLength: nat := 20

  const NotConfiguredMessage: string :=
    "Etsy is not configured. Please add ETSY_API_KEY, ETSY_SHOP_ID, and ETSY_ACCESS_TOKEN to your .env.local file."
  const ApiKeyMissingMessage: string :=
    "Etsy API key is not configured. Please set ETSY_API_KEY in your .env.local file."
  const ShopIdMissingMessage: string :=
    "Etsy Shop ID is not configured. Please set ETSY_SHOP_ID in your .env.local file."
  const AccessTokenMissingMessage: string :=
    "Etsy access token is not configured. Please set ETSY_ACCESS_TOKEN in your .env.local file."

  const AuthFailedMessage: string := "Etsy authentication failed. Please check your API key and access token."
  const ForbiddenMessage: string := "Etsy access forbidden. Please verify your OAuth scopes include listings_w."
  const ShopNotFoundMessage: string := "Etsy shop not found. Please check your Shop ID."
  const RateLimitedMessage: string := "Too many requests to Etsy. Please wait a moment and try again."
  const ListingNotFoundMessage: string := "Etsy listing not found. Please verify the listing ID."

  predicate IsEtsyConfigured(env: EtsyEnv) {
    Present(env.apiKey) && Present(env.shopId) && Present(env.accessToken)
  }

  /** The status agrees with `IsEtsyConfigured`; a missing credential is
      reported in the order key, shop ID, token. */
  function GetEtsyConfigStatus(env: EtsyEnv): (r: ConfigStatus)
    ensures r.configured == IsEtsyConfigured(env)
    ensures !Present(env.apiKey) ==> r.message == ApiKeyMissingMessage
    ensures Present(env.apiKey) && !Present(env.shopId) ==> r.message == ShopIdMissingMessage
    ensures Present(env.apiKey) && Present(env.shopId) && !Present(env.accessToken) ==> r.message == AccessTokenMissingMessage
    ensures r.configured ==> r.message == "Etsy connected (Shop ID: " + env.shopId.value + ")"
  {
    if !Present(env.apiKey) then ConfigStatus(false, ApiKeyMissingMessage)
    else if !Present(env.shopId) then ConfigStatus(false, ShopIdMissingMessage)
    else if !Present(env.accessToken) then ConfigStatus(false, AccessTokenMissingMessage)
    else ConfigStatus(true, "Etsy connected (Shop ID: " + Show(env.shopId) + ")")
  }

  /** A title over 140 characters becomes its first 137 characters and `...`. */
  function ListingTitle(title: string): (r: string)
    ensures |r| <= MaxTitleLength
    ensures |title| <= MaxTitleLength ==> r == title
    ensures |title| > MaxTitleLength ==> |r| == MaxTitleLength && r[..137] == title[..137] && r[137..] == "..."
  {
    if |title| > MaxTitleLength then title[..137] + "..." else title
  }

  /** `tag.substring(0, 20).toLowerCase().trim()`. */
  function NormalizeTag(tag: string): (r: string)
    ensures TagShape(r)
  {
    var lower := ToLower(Prefix(tag, MaxTagLength));
    TrimKeepsLower(lower);
    Trim(lower)
  }

  /** The positions, from `base` on, of the non-empty entries. */
  function KeptFrom(ts: seq<string>, base: nat): (idx: seq<nat>)
    requires base <= |ts|
    ensures forall k :: 0 <= k < |idx| ==> base <= idx[k] < |ts|
    ensures forall k, l :: 0 <= k < l < |idx| ==> idx[k] < idx[l]
    decreases |ts| - base
  {
    if base == |ts| then []
    else if ts[base] == [] then KeptFrom(ts, base + 1)
    else [base] + KeptFrom(ts, base + 1)
  }

  /** Every non-empty entry from `base` on has its position kept. */
  lemma {:induction false} KeptFromComplete(ts: seq<string>, base: nat)
    requires base <= |ts|
    ensures forall i :: base <= i < |ts| && ts[i] != [] ==> i in KeptFrom(ts, base)
    decreases |ts| - base
  {
    if base < |ts| {
      KeptFromComplete(ts, base + 1);
      var idx' := KeptFrom(ts, base + 1);
      if ts[base] != [] {
        assert KeptFrom(ts, base) == [base] + idx';
      }
    }
  }

  /** The kept entries are, one by one, those at the kept positions. */
  lemma {:induction false} DropEmptyPicks(ts: seq<string>, base: nat)
    requires base <= |ts|
    ensures |KeptFrom(ts, base)| == |DropEmpty(ts[base..])|
    ensures forall k :: 0 <= k < |DropEmpty(ts[base..])| ==> DropEmpty(ts[base..])[k] == ts[KeptFrom(ts, base)[k]]
    decreases |ts| - base
  {
    if base < |ts| {
      DropEmptyPicks(ts, base + 1);
      var r', idx' := DropEmpty(ts[base + 1..]), KeptFrom(ts, base + 1);
      assert ts[base..][1..] == ts[base + 1..];
      assert ts[base..][0] == ts[base];
      if ts[base] != [] {
        var r, idx := [ts[base]] + r', [base] + idx';
        assert DropEmpty(ts[base..]) == r;
        assert KeptFrom(ts, base) == idx;
        forall k | 0 <= k < |r| ensures r[k] == ts[idx[k]] {
          if k > 0 {
            assert r[k] == r'[k - 1] && idx[k] == idx'[k - 1];
          }
        }
      }
    }
  }

  /** Dropping the empty entries keeps exactly the non-empty ones, in their order. */
  lemma DropEmptySelects(ts: seq<string>, base: nat)
    requires base <= |ts|
    ensures var r, idx := DropEmpty(ts[base..]), KeptFrom(ts, base);
      && |idx| == |r|
      && (forall k :: 0 <= k < |r| ==> r[k] == ts[idx[k]])
      && (forall i :: base <= i < |ts| && ts[i] != [] ==> i in idx)
  {
    DropEmptyPicks(ts, base);
    KeptFromComplete(ts, base);
  }

  /** `tags.slice(0, 13).map(...)`: the first 13 tags, each normalised. */
  function NormalizedTags(tags: seq<string>): (r: seq<string>)
    ensures |r| == if |tags| > MaxTags then MaxTags else |tags|
    ensures forall i :: 0 <= i < |r| ==> r[i] == NormalizeTag(tags[i]) && TagShape(r[i])
  {
    var n := if |tags| > MaxTags then MaxTags else |tags|;
    seq(n, i requires 0 <= i < n => NormalizeTag(tags[i]))
  }

  /** The tags as `createEtsyProductWithImage` sends them: the first 13,
      each normalised, the empty ones dropped. */
  function ValidTags(tags: seq<string>): (r: seq<string>)
    ensures |r| <= MaxTags
    ensures forall k :: 0 <= k < |r| ==> r[k] != [] && TagShape(r[k])
  {
    var normalized := NormalizedTags(tags);
    DropEmptyShape(normalized);
    DropEmpty(normalized)
  }

  /** What every normalised tag looks like. */
  predicate TagShape(t: string) {
    |t| <= MaxTagLength && IsLower(t) && (t == [] || (!IsJsWhitespace(t[0]) && !IsJsWhitespace(t[|t| - 1])))
  }

  lemma DropEmptyShape(ts: seq<string>)
    requires forall i :: 0 <= i < |ts| ==> TagShape(ts[i])
    ensures forall k :: 0 <= k < |DropEmpty(ts)| ==> TagShape(DropEmpty(ts)[k])
  {
    var r := DropEmpty(ts);
    forall k | 0 <= k < |r| ensures TagShape(r[k]) {
      var j :| 0 <= j < |ts| && ts[j] == r[k];
    }
  }

  /** The valid tags are the normalised first 13 input tags, in input order,
      less those that normalised to the empty string. */
  lemma ValidTagsSelection(tags: seq<string>)
    ensures var normalized := NormalizedTags(tags);
      var r, idx := ValidTags(tags), KeptFrom(normalized, 0);
      && |idx| == |r|
      && (forall k :: 0 <= k < |r| ==> idx[k] < |normalized| && r[k] == NormalizeTag(tags[idx[k]]))
      && (forall k, l :: 0 <= k < l < |idx| ==> idx[k] < idx[l])
      && (forall i :: 0 <= i < |normalized| && NormalizeTag(tags[i]) != [] ==> i in idx)
  {
    var normalized := NormalizedTags(tags);
    DropEmptySelects(normalized, 0);
    assert normalized[0..] == normalized;
  }

  datatype WhoMade = IDid | SomeoneElse | Collective
  datatype ListingType = Physical | Digital

  /** The listing body posted to the listings endpoint. */
  datatype EtsyListingPayload = EtsyListingPayload(
    quantity: int,
    title: string,
    description: string,
    price: real,
    whoMade: WhoMade,
    whenMade: string,
    taxonomyId: int,
    listingType: ListingType,
    isSupply: bool,
    isCustomizable: bool,
    shouldAutoRenew: bool,
    isTaxable: bool,
    tags: Option<seq<string>>)

  /** The listing `createEtsyProductWithImage` builds: within Etsy's limits,
      `tags` absent exactly when no valid tag remains, and the fixed
      print-on-demand fields. */
  function ListingPayload(title: string, description: string, price: real, taxonomyId: int, tags: seq<string>): (p: EtsyListingPayload)
    ensures p.title == ListingTitle(title) && |p.title| <= MaxTitleLength
    ensures p.tags.None? <==> ValidTags(tags) == []
    ensures p.tags.Some? ==> p.tags.value == ValidTags(tags) && |p.tags.value| <= MaxTags
    ensures p.quantity == 999 && p.whoMade == IDid && p.whenMade == "made_to_order" && p.listingType == Physical
    ensures !p.isSupply && !p.isCustomizable && p.shouldAutoRenew && p.isTaxable
    ensures p.description == description && p.price == price && p.taxonomyId == taxonomyId
  {
    var validTags := ValidTags(tags);
    EtsyListingPayload(
      quantity := 999,
      title := ListingTitle(title),
      description := description,
      price := price,
      whoMade := IDid,
      whenMade := "made_to_order",
      taxonomyId := taxonomyId,
      listingType := Physical,
      isSupply := false,
      isCustomizable := false,
      shouldAutoRenew := true,
      isTaxable := true,
      tags := if |validTags| > 0 then Some(validTags) else None)
  }

  /** The listing the API returns. */
  datatype EtsyListing = EtsyListing(listingId: int, url: string)

  /** The image record the API returns. */
  datatype EtsyImage = EtsyImage(listingImageId: int)

  /** The multipart form posted to the listing-images endpoint. */
  datatype ImageForm = ImageForm(image: seq<Byte>, mimeType: string, fileName: string, rank: string, altText: Option<string>)

  /** The message for a failed listing creation. */
  function ListingErrorMessage(status: int, errorText: string, statusText: string): string {
    if status == 401 then AuthFailedMessage
    else if status == 403 then ForbiddenMessage
    else if status == 404 then ShopNotFoundMessage
    else if status == 429 then RateLimitedMessage
    else if status == 400 || status == 422 then "Invalid listing data: " + errorText
    else "Failed to create Etsy listing: " + statusText
  }

  /** The message for a failed image upload. */
  function UploadErrorMessage(status: int, statusText: string): string {
    if status == 401 then AuthFailedMessage
    else if status == 404 then ListingNotFoundMessage
    else if status == 429 then RateLimitedMessage
    else "Failed to upload image to Etsy: " + statusText
  }

  /** The four special listing statuses get four different messages; 400 and
      422 carry the response body; every other status names the status text. */
  lemma ListingErrorsDistinguish(errorText: string, statusText: string)
    ensures |{ListingErrorMessage(401, errorText, statusText), ListingErrorMessage(403, errorText, statusText),
              ListingErrorMessage(404, errorText, statusText), ListingErrorMessage(429, errorText, statusText)}| == 4
    ensures ListingErrorMessage(400, errorText, statusText) == ListingErrorMessage(422, errorText, statusText)
              == "Invalid listing data: " + errorText
  {
    assert |AuthFailedMessage| == 71 && |ForbiddenMessage| == 74;
    assert |ShopNotFoundMessage| == 47 && |RateLimitedMessage| == 62;
  }

  /** A status other than the special ones is reported with its status text. */
  lemma ListingErrorOther(status: int, errorText: string, statusText: string)
    requires status !in {400, 401, 403, 404, 422, 429}
    ensures ListingErrorMessage(status, errorText, statusText) == "Failed to create Etsy listing: " + statusText
  {
  }

  /** The upload reports a missing listing, not a missing shop, for 404, and
      shares the authentication and rate-limit messages with listing creation. */
  lemma UploadErrorsDistinguish(statusText: string)
    ensures UploadErrorMessage(404, statusText) != ListingErrorMessage(404, "", statusText)
    ensures UploadErrorMessage(401, statusText) == ListingErrorMessage(401, "", statusText)
    ensures UploadErrorMessage(429, statusText) == ListingErrorMessage(429, "", statusText)
    ensures UploadErrorMessage(403, statusText) == "Failed to upload image to Etsy: " + statusText
  {
    assert |ListingNotFoundMessage| == 53 && |ShopNotFoundMessage| == 47;
  }

  /** `createEtsyListing`: refuses without credentials, otherwise relays the
      response or translates its status. */
  function CreateEtsyListing(env: EtsyEnv, payload: EtsyListingPayload, resp: Response<EtsyListing>): (r: Result<EtsyListing, string>)
    ensures r.Ok? <==> IsEtsyConfigured(env) && resp.Ok()
    ensures r.Ok? ==> r.value == resp.json
    ensures !IsEtsyConfigured(env) ==> r == Err(NotConfiguredMessage)
    ensures IsEtsyConfigured(env) && !resp.Ok() ==> r == Err(ListingErrorMessage(resp.status, resp.body, resp.statusText))
  {
    if !IsEtsyConfigured(env) then Err(NotConfiguredMessage)
    else if !resp.Ok() then Err(ListingErrorMessage(resp.status, resp.body, resp.statusText))
    else Ok(resp.json)
  }

  /** The loop of `uploadEtsyListingImage` that fills the `Uint8Array`. */
  method BinaryToBytes(binary: string) returns (bytes: array<Byte>)
    ensures bytes.Length == |binary|
    ensures forall i :: 0 <= i < |binary| ==> bytes[i] == ToUint8(binary[i] as int)
    ensures bytes[..] == CharCodes(binary)
  {
    bytes := new Byte[|binary|];
    for i := 0 to |binary|
      invariant forall j :: 0 <= j < i ==> bytes[j] == ToUint8(binary[j] as int)
    {
      bytes[i] := ToUint8(binary[i] as int);
    }
  }

  /** `uploadEtsyListingImage`. `atob` is the browser's base64 decoder, given
      as a parameter; `form` is what is posted and `target` the listing whose
      images URL it is posted to, both `None` when nothing is posted. */
  method UploadEtsyListingImage(env: EtsyEnv, listingId: int, imageBase64: string, rank: int, altText: string,
                                atob: string -> string, resp: Response<EtsyImage>)
    returns (r: Result<EtsyImage, string>, form: Option<ImageForm>, target: Option<int>)
    ensures !IsEtsyConfigured(env) ==> r == Err(NotConfiguredMessage) && form == None
    ensures target == if IsEtsyConfigured(env) then Some(listingId) else None
    ensures IsEtsyConfigured(env) ==>
      form == Some(ImageForm(CharCodes(atob(StripImageHeader(imageBase64))), "image/png", "product.png",
                             IntToString(rank), if altText != "" then Some(altText) else None))
    ensures IsEtsyConfigured(env) && resp.Ok() ==> r == Ok(resp.json)
    ensures IsEtsyConfigured(env) && !resp.Ok() ==> r == Err(UploadErrorMessage(resp.status, resp.statusText))
  {
    if !IsEtsyConfigured(env) {
      return Err(NotConfiguredMessage), None, None;
    }
    target := Some(listingId);
    var base64Data := StripImageHeader(imageBase64);
    var binaryString := atob(base64Data);
    var bytes := BinaryToBytes(binaryString);
    form := Some(ImageForm(bytes[..], "image/png", "product.png", IntToString(rank),
                           if altText != "" then Some(altText) else None));
    if !resp.Ok() {
      r := Err(UploadErrorMessage(resp.status, resp.statusText));
    } else {
      r := Ok(resp.json);
    }
  }

  datatype EtsyProduct = EtsyProduct(listing: EtsyListing, image: EtsyImage)

  /** `createEtsyProductWithImage`: normalise, create the listing, then
      upload its image with the listing title as alternative text. `sent` is
      the listing posted, `form` the image form posted and `imageTarget` the
      listing that form is posted to. */
  method CreateEtsyProductWithImage(env: EtsyEnv, title: string, description: string, price: real,
                                    imageBase64: string, taxonomyId: int, tags: seq<string>, atob: string -> string,
                                    listingResp: Response<EtsyListing>, imageResp: Response<EtsyImage>)
    returns (r: Result<EtsyProduct, string>, sent: Option<EtsyListingPayload>, form: Option<ImageForm>,
             imageTarget: Option<int>)
    ensures sent == if IsEtsyConfigured(env) then Some(ListingPayload(title, description, price, taxonomyId, tags)) else None
    ensures r.Ok? <==> IsEtsyConfigured(env) && listingResp.Ok() && imageResp.Ok()
    ensures r.Ok? ==> r.value == EtsyProduct(listingResp.json, imageResp.json)
    ensures !IsEtsyConfigured(env) ==> r == Err(NotConfiguredMessage)
    ensures IsEtsyConfigured(env) && !listingResp.Ok() ==>
      r == Err(ListingErrorMessage(listingResp.status, listingResp.body, listingResp.statusText)) && form == None
    ensures imageTarget == if IsEtsyConfigured(env) && listingResp.Ok() then Some(listingResp.json.listingId) else None
    ensures IsEtsyConfigured(env) && listingResp.Ok() ==>
      var t := ListingTitle(title);
      form == Some(ImageForm(CharCodes(atob(StripImageHeader(imageBase64))), "image/png", "product.png", "1",
                             if t != "" then Some(t) else None))
    ensures IsEtsyConfigured(env) && listingResp.Ok() && !imageResp.Ok() ==>
      r == Err(UploadErrorMessage(imageResp.status, imageResp.statusText))
  {
    var t := title;
    if |t| > MaxTitleLength {
      t := t[..137] + "...";
    }
    var validTags := ValidTags(tags);
    var listingData := EtsyListingPayload(
      quantity := 999,
      title := t,
      description := description,
      price := price,
      whoMade := IDid,
      whenMade := "made_to_order",
      taxonomyId := taxonomyId,
      listingType := Physical,
      isSupply := false,
      isCustomizable := false,
      shouldAutoRenew := true,
      isTaxable := true,
      tags := if |validTags| > 0 then Some(validTags) else None);
    assert listingData == ListingPayload(title, description, price, taxonomyId, tags);
    sent := if IsEtsyConfigured(env) then Some(listingData) else None;
    var listing := CreateEtsyListing(env, listingData, listingResp);
    if listing.Err? {
      return Err(listing.error), sent, None, None;
    }
    var image;
    image, form, imageTarget := UploadEtsyListingImage(env, listing.value.listingId, imageBase64, 1, t, atob, imageResp);
    if image.Err? {
      return Err(image.error), sent, form, imageTarget;
    }
    r := Ok(EtsyProduct(listing.value, image.value));
  }

  /** `sanitizeHtmlForEtsy`: no raw `<`, `>`, `"` or `'` remains, and decoding
      the five entities gives back the input. */
  function SanitizeHtmlForEtsy(html: string): (r: string)
    ensures HtmlEscape.NoRawSpecials(r)
    ensures HtmlEscape.Unescape(r) == html
  {
    HtmlEscape.ChainIsEscape(html);
    HtmlEscape.EscapeHasNoSpecials(html);
    HtmlEscape.UnescapeEscape(html);
    HtmlEscape.ReplaceChain(html)
  }
}
