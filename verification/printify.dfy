/** The Printify REST API client: the credential check, the image upload,
    product creation and publication, the default variants of each
    blueprint, and the upload-create-publish sequence. */
module PrintifyService {
  import opened Wrappers
  import opened Strings
  import opened Env
  import opened Http
  import opened DataUrl
  import HtmlEscape

  /** PRINTIFY_API_TOKEN and PRINTIFY_SHOP_ID. */
  datatype PrintifyEnv = PrintifyEnv(apiToken: Option<string>, shopId: Option<string>)

  /** Blueprint ids of common products. */
  const BlueprintUnisexTshirt: int := 3
  const BlueprintHoodie: int := 5
  const BlueprintMug: int := 19
  const BlueprintPoster: int := 165
  const BlueprintCanvas: int := 67
  const BlueprintToteBag: int := 26
  const BlueprintPhoneCase: int := 77
  const BlueprintSticker: int := 380

  /** Print provider ids. */
  const ProviderMonsterDigital: int := 1
  const ProviderCreativeZone: int := 2
  const ProviderDuplium: int := 3
  const ProviderSwiftpod: int := 8
  const ProviderPrintful: int := 10

  /** The variant used for a blueprint without a default list. */
  const FallbackVariant: int := 45740

  const NotConfiguredMessage: string :=
    "Printify is not configured. Please add PRINTIFY_API_TOKEN and PRINTIFY_SHOP_ID to your .env.local file."
  const TokenMissingMessage: string :=
    "Printify API token is not configured. Please set PRINTIFY_API_TOKEN in your .env.local file."
  const ShopIdMissingMessage: string :=
    "Printify Shop ID is not configured. Please set PRINTIFY_SHOP_ID in your .env.local file."
  const AuthFailedMessage: string := "Printify authentication failed. Please check your API token."
  const RateLimitedMessage: string := "Too many requests to Printify. Please wait a moment and try again."
  const InvalidProductMessage: string := "Invalid product data. Please check the product configuration."
  const ProductNotFoundMessage: string := "Product not found. Please verify the product ID."
  const AlreadyPublishedMessage: string := "Product already published to this sales channel."

  predicate IsPrintifyConfigured(env: PrintifyEnv) {
    Present(env.apiToken) && Present(env.shopId)
  }

  /** The status agrees with `IsPrintifyConfigured`; a missing token is
      reported before a missing shop ID. */
  function GetPrintifyConfigStatus(env: PrintifyEnv): (r: ConfigStatus)
    ensures r.configured == IsPrintifyConfigured(env)
    ensures !Present(env.apiToken) ==> r.message == TokenMissingMessage
    ensures Present(env.apiToken) && !Present(env.shopId) ==> r.message == ShopIdMissingMessage
    ensures r.configured ==> r.message == "Printify connected (Shop ID: " + env.shopId.value + ")"
  {
    if !Present(env.apiToken) then ConfigStatus(false, TokenMissingMessage)
    else if !Present(env.shopId) then ConfigStatus(false, ShopIdMissingMessage)
    else ConfigStatus(true, "Printify connected (Shop ID: " + Show(env.shopId) + ")")
  }

  /** The uploaded image record the API returns. */
  datatype PrintifyImage = PrintifyImage(id: string, fileName: string, previewUrl: string)

  /** The product record the API returns. */
  datatype PrintifyProduct = PrintifyProduct(id: string, title: string, description: string)

  /** The publication record the API returns. */
  datatype PrintifyPublishResponse = PrintifyPublishResponse(id: string, handle: string)

  /** The JSON body of an image upload. */
  datatype UploadBody = UploadBody(fileName: string, contents: string)

  datatype PrintifyVariant = PrintifyVariant(id: int, price: int, isEnabled: bool)
  datatype PlacedImage = PlacedImage(id: string, x: real, y: real, scale: real, angle: real)
  datatype Placeholder = Placeholder(position: string, images: seq<PlacedImage>)
  datatype PrintArea = PrintArea(variantIds: seq<int>, placeholders: seq<Placeholder>)

  /** The JSON body of a product creation. */
  datatype PrintifyProductPayload = PrintifyProductPayload(
    title: string,
    description: string,
    blueprintId: int,
    printProviderId: int,
    variants: seq<PrintifyVariant>,
    printAreas: seq<PrintArea>)

  /** The message for a failed upload. */
  function UploadErrorMessage(status: int, statusText: string): string {
    if status == 401 then AuthFailedMessage
    else if status == 429 then RateLimitedMessage
    else "Failed to upload image to Printify: " + statusText
  }

  /** The message for a failed product creation. */
  function CreateErrorMessage(status: int, statusText: string): string {
    if status == 401 then AuthFailedMessage
    else if status == 429 then RateLimitedMessage
    else if status == 422 then InvalidProductMessage
    else "Failed to create Printify product: " + statusText
  }

  /** The message for a failed publication. */
  function PublishErrorMessage(status: int, statusText: string): string {
    if status == 401 then AuthFailedMessage
    else if status == 404 then ProductNotFoundMessage
    else if status == 409 then AlreadyPublishedMessage
    else if status == 429 then RateLimitedMessage
    else "Failed to publish Printify product: " + statusText
  }

  /** The three calls share the authentication and rate-limit messages; only
      creation singles out 422, and only publication 404 and 409. */
  lemma ErrorMessagesAgree(statusText: string)
    ensures UploadErrorMessage(401, statusText) == CreateErrorMessage(401, statusText) == PublishErrorMessage(401, statusText)
    ensures UploadErrorMessage(429, statusText) == CreateErrorMessage(429, statusText) == PublishErrorMessage(429, statusText)
    ensures UploadErrorMessage(422, statusText) == "Failed to upload image to Printify: " + statusText
    ensures CreateErrorMessage(422, statusText) == InvalidProductMessage
    ensures PublishErrorMessage(422, statusText) == "Failed to publish Printify product: " + statusText
    ensures CreateErrorMessage(404, statusText) == "Failed to create Printify product: " + statusText
    ensures CreateErrorMessage(409, statusText) == "Failed to create Printify product: " + statusText
    ensures |{PublishErrorMessage(401, statusText), PublishErrorMessage(404, statusText),
              PublishErrorMessage(409, statusText), PublishErrorMessage(429, statusText)}| == 4
  {
    assert |AuthFailedMessage| == 60 && |ProductNotFoundMessage| == 48;
    assert |AlreadyPublishedMessage| == 48 && |RateLimitedMessage| == 66;
    var notFound, published := ProductNotFoundMessage, AlreadyPublishedMessage;
    assert notFound == "Product not found. Please verify the product ID.";
    assert published == "Product already published to this sales channel.";
    assert notFound[8] != published[8];
  }

  /** `uploadImageToPrintify`: refuses without credentials, otherwise relays
      the response or translates its status. */
  function UploadImageToPrintify(env: PrintifyEnv, resp: Response<PrintifyImage>): (r: Result<PrintifyImage, string>)
    ensures r.Ok? <==> IsPrintifyConfigured(env) && resp.Ok()
    ensures r.Ok? ==> r.value == resp.json
    ensures !IsPrintifyConfigured(env) ==> r == Err(NotConfiguredMessage)
    ensures IsPrintifyConfigured(env) && !resp.Ok() ==> r == Err(UploadErrorMessage(resp.status, resp.statusText))
  {
    if !IsPrintifyConfigured(env) then Err(NotConfiguredMessage)
    else if !resp.Ok() then Err(UploadErrorMessage(resp.status, resp.statusText))
    else Ok(resp.json)
  }

  /** The body of an upload: the given file name and the image with any
      `data:image/<word>;base64,` header removed. */
  function UploadRequest(imageBase64: string, fileName: string): (b: UploadBody)
    ensures b.fileName == fileName
    ensures |b.contents| <= |imageBase64| && b.contents == imageBase64[|imageBase64| - |b.contents|..]
    ensures !StartsWith(imageBase64, ImageHead) ==> b.contents == imageBase64
  {
    UploadBody(fileName, StripImageHeader(imageBase64))
  }

  /** `createPrintifyProduct`. */
  function CreatePrintifyProduct(env: PrintifyEnv, resp: Response<PrintifyProduct>): (r: Result<PrintifyProduct, string>)
    ensures r.Ok? <==> IsPrintifyConfigured(env) && resp.Ok()
    ensures r.Ok? ==> r.value == resp.json
    ensures !IsPrintifyConfigured(env) ==> r == Err(NotConfiguredMessage)
    ensures IsPrintifyConfigured(env) && !resp.Ok() ==> r == Err(CreateErrorMessage(resp.status, resp.statusText))
  {
    if !IsPrintifyConfigured(env) then Err(NotConfiguredMessage)
    else if !resp.Ok() then Err(CreateErrorMessage(resp.status, resp.statusText))
    else Ok(resp.json)
  }

  /** `publishPrintifyProduct`. */
  function PublishPrintifyProduct(env: PrintifyEnv, resp: Response<PrintifyPublishResponse>): (r: Result<PrintifyPublishResponse, string>)
    ensures r.Ok? <==> IsPrintifyConfigured(env) && resp.Ok()
    ensures r.Ok? ==> r.value == resp.json
    ensures !IsPrintifyConfigured(env) ==> r == Err(NotConfiguredMessage)
    ensures IsPrintifyConfigured(env) && !resp.Ok() ==> r == Err(PublishErrorMessage(resp.status, resp.statusText))
  {
    if !IsPrintifyConfigured(env) then Err(NotConfiguredMessage)
    else if !resp.Ok() then Err(PublishErrorMessage(resp.status, resp.statusText))
    else Ok(resp.json)
  }

  /** `getDefaultVariantIds`: never empty; the blueprints without a list of
      their own get the single fallback variant. */
  function DefaultVariantIds(blueprintId: int): (ids: seq<int>)
    ensures |ids| >= 1
    ensures blueprintId !in {BlueprintUnisexTshirt, BlueprintHoodie, BlueprintMug, BlueprintPoster, BlueprintToteBag} ==>
      ids == [FallbackVariant]
  {
    if blueprintId == BlueprintUnisexTshirt then [45740, 45742, 45744]
    else if blueprintId == BlueprintHoodie then [46012, 46014, 46016]
    else if blueprintId == BlueprintMug then [12019]
    else if blueprintId == BlueprintPoster then [18237, 18238]
    else if blueprintId == BlueprintToteBag then [31112]
    else [FallbackVariant]
  }

  /** Canvas, phone case and sticker, though named blueprints, fall back to
      the T-shirt's first variant. */
  lemma UnlistedBlueprintsFallBack()
    ensures DefaultVariantIds(BlueprintCanvas) == [FallbackVariant]
    ensures DefaultVariantIds(BlueprintPhoneCase) == [FallbackVariant]
    ensures DefaultVariantIds(BlueprintSticker) == [FallbackVariant]
    ensures DefaultVariantIds(BlueprintUnisexTshirt)[0] == FallbackVariant
  {
  }

  /** `Math.round(price * 100)`: the nearest whole number of cents, halves
      rounded up. */
  function Cents(price: real): (c: int)
    ensures (c as real) - 0.5 <= price * 100.0 < (c as real) + 0.5
  {
    (price * 100.0 + 0.5).Floor
  }

  /** The product `createAndPublishProduct` creates: one enabled variant per
      id at the same price, and one print area covering exactly those
      variants with the uploaded image centred on the front. */
  function ProductPayload(title: string, description: string, blueprintId: int, printProviderId: int,
                          variantIds: seq<int>, price: real, imageId: string): (p: PrintifyProductPayload)
    ensures p.title == title && p.description == description
    ensures p.blueprintId == blueprintId && p.printProviderId == printProviderId
    ensures |p.variants| == |variantIds|
    ensures forall i :: 0 <= i < |variantIds| ==>
      p.variants[i].id == variantIds[i] && p.variants[i].price == Cents(price) && p.variants[i].isEnabled
    ensures |p.printAreas| == 1 && p.printAreas[0].variantIds == variantIds
    ensures p.printAreas[0].placeholders == [Placeholder("front", [PlacedImage(imageId, 0.5, 0.5, 1.0, 0.0)])]
  {
    var cents := Cents(price);
    PrintifyProductPayload(
      title := title,
      description := description,
      blueprintId := blueprintId,
      printProviderId := printProviderId,
      variants := seq(|variantIds|, i requires 0 <= i < |variantIds| => PrintifyVariant(variantIds[i], cents, true)),
      printAreas := [PrintArea(variantIds, [Placeholder("front", [PlacedImage(imageId, 0.5, 0.5, 1.0, 0.0)])])])
  }

  /** The variants a payload offers are exactly the ones its print area covers. */
  lemma PayloadVariantsCovered(title: string, description: string, blueprintId: int, printProviderId: int,
                               price: real, imageId: string)
    ensures var p := ProductPayload(title, description, blueprintId, printProviderId, DefaultVariantIds(blueprintId), price, imageId);
      && |p.variants| >= 1
      && (forall v :: v in p.variants ==> v.id in p.printAreas[0].variantIds && v.isEnabled)
      && (forall id :: id in p.printAreas[0].variantIds ==> exists v :: v in p.variants && v.id == id)
  {
    var ids := DefaultVariantIds(blueprintId);
    var p := ProductPayload(title, description, blueprintId, printProviderId, ids, price, imageId);
    forall v | v in p.variants ensures v.id in ids && v.isEnabled {
      var i :| 0 <= i < |p.variants| && p.variants[i] == v;
    }
    forall id | id in ids ensures exists v :: v in p.variants && v.id == id {
      var i :| 0 <= i < |ids| && ids[i] == id;
      assert p.variants[i] in p.variants;
    }
  }

  datatype PrintifyOutcome = PrintifyOutcome(product: PrintifyProduct, publishResult: Option<PrintifyPublishResponse>)

  /** `createAndPublishProduct`: upload the design as `<title>.png`, create
      the product on the blueprint's default variants, then try to publish
      it. A failed upload or creation fails the whole call; a failed
      publication only leaves `publishResult` absent. `upload` and `payload`
      are the bodies posted and `publishTarget` the product whose publish URL
      is posted to, each `None` when that call is not reached. */
  method CreateAndPublishProduct(env: PrintifyEnv, title: string, description: string, imageBase64: string,
                                 blueprintId: int, printProviderId: int, price: real,
                                 uploadResp: Response<PrintifyImage>, createResp: Response<PrintifyProduct>,
                                 publishResp: Response<PrintifyPublishResponse>)
    returns (r: Result<PrintifyOutcome, string>, upload: Option<UploadBody>, payload: Option<PrintifyProductPayload>,
             publishTarget: Option<string>)
    ensures r.Ok? <==> IsPrintifyConfigured(env) && uploadResp.Ok() && createResp.Ok()
    ensures r.Ok? ==> r.value.product == createResp.json
    ensures r.Ok? ==> r.value.publishResult == if publishResp.Ok() then Some(publishResp.json) else None
    ensures !IsPrintifyConfigured(env) ==> r == Err(NotConfiguredMessage) && upload == None && payload == None
    ensures IsPrintifyConfigured(env) ==> upload == Some(UploadRequest(imageBase64, title + ".png"))
    ensures IsPrintifyConfigured(env) && !uploadResp.Ok() ==>
      r == Err(UploadErrorMessage(uploadResp.status, uploadResp.statusText)) && payload == None
    ensures IsPrintifyConfigured(env) && uploadResp.Ok() ==>
      payload == Some(ProductPayload(title, description, blueprintId, printProviderId,
                                     DefaultVariantIds(blueprintId), price, uploadResp.json.id))
    ensures IsPrintifyConfigured(env) && uploadResp.Ok() && !createResp.Ok() ==>
      r == Err(CreateErrorMessage(createResp.status, createResp.statusText))
    ensures publishTarget == if r.Ok? then Some(createResp.json.id) else None
  {
    upload := if IsPrintifyConfigured(env) then Some(UploadRequest(imageBase64, title + ".png")) else None;
    var uploadedImage := UploadImageToPrintify(env, uploadResp);
    if uploadedImage.Err? {
      return Err(uploadedImage.error), upload, None, None;
    }
    var variantIds := DefaultVariantIds(blueprintId);
    var productData := ProductPayload(title, description, blueprintId, printProviderId, variantIds, price, uploadedImage.value.id);
    payload := Some(productData);
    var product := CreatePrintifyProduct(env, createResp);
    if product.Err? {
      return Err(product.error), upload, payload, None;
    }
    var publishResult: Option<PrintifyPublishResponse> := None;
    publishTarget := Some(product.value.id);
    var published := PublishPrintifyProduct(env, publishResp);
    if published.Ok? {
      publishResult := Some(published.value);
    }
    r := Ok(PrintifyOutcome(product.value, publishResult));
  }

  /** `sanitizeHtmlForPrintify`: no raw `<`, `>`, `"` or `'` remains, and
      decoding the five entities gives back the input. */
  function SanitizeHtmlForPrintify(html: string): (r: string)
    ensures HtmlEscape.NoRawSpecials(r)
    ensures HtmlEscape.Unescape(r) == html
  {
    HtmlEscape.ChainIsEscape(html);
    HtmlEscape.EscapeHasNoSpecials(html);
    HtmlEscape.UnescapeEscape(html);
    HtmlEscape.ReplaceChain(html)
  }
}
