/** The Shopify Admin REST API client: the credential check, the data-URL
    to bytes conversion, title validation, the draft product payload, the
    translation of failures into messages, and the product URLs. */
module ShopifyService {
  import opened Wrappers
  import opened Strings
  import opened Env
  import opened Http
  import opened DataUrl

  /** SHOPIFY_SHOP_DOMAIN, SHOPIFY_ADMIN_API_TOKEN and SHOPIFY_API_VERSION. */
  datatype ShopifyEnv = ShopifyEnv(shopDomain: Option<string>, adminApiToken: Option<string>, apiVersion: Option<string>)

  const DefaultApiVersion: string := "2024-01"
  const MaxTitleLength: nat := 255
  const DefaultMime: string := "image/png"
  const DefaultProductType: string := "Print on Demand"
  const Vendor: string := "AI Generated"
  const DraftStatus: string := "draft"

  const DomainMissingMessage: string :=
    "Shopify shop domain is not configured. Please set SHOPIFY_SHOP_DOMAIN in your .env.local file."
  const TokenMissingMessage: string :=
    "Shopify admin API token is not configured. Please set SHOPIFY_ADMIN_API_TOKEN in your .env.local file."
  const NotConfiguredMessage: string := "Shopify is not configured. Please add your credentials to .env.local"
  const TitleRequiredMessage: string := "Product title is required"
  const TitleTooLongMessage: string := "Product title must be 255 characters or less"
  const AuthFailedMessage: string := "Authentication failed. Please check your Shopify Admin API token."
  const AccessDeniedMessage: string := "Access denied. Please ensure your API token has the required permissions."
  const RateLimitedMessage: string := "Rate limit exceeded. Please wait a moment and try again."
  const InvalidProductMessage: string := "Invalid product data. Please check your product information and try again."
  const NoProductMessage: string := "Unexpected response from Shopify API - no product returned"
  const NetworkErrorMessage: string :=
    "Network error: Unable to connect to Shopify. Please check your internet connection."

  predicate IsShopifyConfigured(env: ShopifyEnv) {
    Present(env.shopDomain) && Present(env.adminApiToken)
  }

  /** The status agrees with `IsShopifyConfigured`; a missing domain is
      reported before a missing token. */
  function GetShopifyConfigStatus(env: ShopifyEnv): (r: ConfigStatus)
    ensures r.configured == IsShopifyConfigured(env)
    ensures !Present(env.shopDomain) ==> r.message == DomainMissingMessage
    ensures Present(env.shopDomain) && !Present(env.adminApiToken) ==> r.message == TokenMissingMessage
    ensures r.configured ==> r.message == "Connected to " + env.shopDomain.value
  {
    if !Present(env.shopDomain) then ConfigStatus(false, DomainMissingMessage)
    else if !Present(env.adminApiToken) then ConfigStatus(false, TokenMissingMessage)
    else ConfigStatus(true, "Connected to " + Show(env.shopDomain))
  }

  /** `SHOPIFY_API_VERSION || '2024-01'`. */
  function ApiVersion(env: ShopifyEnv): (v: string)
    ensures v != []
    ensures Present(env.apiVersion) ==> v == env.apiVersion.value
  {
    if Present(env.apiVersion) then env.apiVersion.value else DefaultApiVersion
  }

  // ---------------------------------------------------------------------
  // dataURLToBlob

  /** The characters `.` does not match in a JavaScript regular expression. */
  predicate IsLineTerminator(c: char) {
    c == '\n' || c == '\r' || c == '\U{2028}' || c == '\U{2029}'
  }

  /** The first `;` at or after `j` that `.*?` can reach, scanning no line terminator. */
  function SemicolonFrom(s: string, j: nat): (k: Option<nat>)
    requires j <= |s|
    ensures k.Some? ==> j <= k.value < |s| && s[k.value] == ';'
    ensures k.Some? ==> forall m :: j <= m < k.value ==> s[m] != ';' && !IsLineTerminator(s[m])
    ensures k.None? ==> forall m :: j <= m < |s| && s[m] == ';' ==> exists p :: j <= p < m && IsLineTerminator(s[p])
    decreases |s| - j
  {
    if j == |s| then None
    else if s[j] == ';' then Some(j)
    else if IsLineTerminator(s[j]) then None
    else SemicolonFrom(s, j + 1)
  }

  /** The group of the leftmost match of `/:(.*?);/` starting at or after `i`. */
  function MimeMatchFrom(s: string, i: nat): (g: Option<string>)
    requires i <= |s|
    ensures g.Some? ==> ';' !in g.value && forall m :: 0 <= m < |g.value| ==> !IsLineTerminator(g.value[m])
    decreases |s| - i
  {
    if i == |s| then None
    else if s[i] == ':' && SemicolonFrom(s, i + 1).Some? then
      var k := SemicolonFrom(s, i + 1).value;
      Some(s[i + 1..k])
    else MimeMatchFrom(s, i + 1)
  }

  /** `header.match(/:(.*?);/)?.[1] || 'image/png'`. */
  function MimeOf(header: string): (mime: string)
    ensures mime != [] && ';' !in mime
  {
    match MimeMatchFrom(header, 0)
    case Some(g) => if g != [] then g else DefaultMime
    case None => DefaultMime
  }

  /** `data:<mime>;...` gives `<mime>`, when the MIME text is non-empty and
      has no `;`, no line terminator, and `data` no `:`. */
  lemma {:induction false} MimeOfHeader(scheme: string, mime: string, rest: string)
    requires ':' !in scheme
    requires mime != [] && ';' !in mime
    requires forall m :: 0 <= m < |mime| ==> !IsLineTerminator(mime[m])
    ensures MimeOf(scheme + ":" + mime + ";" + rest) == mime
  {
    var s := scheme + ":" + mime + ";" + rest;
    var c := |scheme|;
    var k := c + 1 + |mime|;
    assert s[c] == ':';
    assert s[k] == ';';
    SemicolonReaches(s, c + 1, k);
    assert s[c + 1..k] == mime;
    MimeMatchSkips(s, 0, c);
  }

  lemma {:induction false} SemicolonReaches(s: string, j: nat, k: nat)
    requires j <= k < |s| && s[k] == ';'
    requires forall m :: j <= m < k ==> s[m] != ';' && !IsLineTerminator(s[m])
    ensures SemicolonFrom(s, j) == Some(k)
    decreases k - j
  {
    if j < k {
      SemicolonReaches(s, j + 1, k);
    }
  }

  lemma {:induction false} MimeMatchSkips(s: string, i: nat, c: nat)
    requires i <= c < |s| && s[c] == ':'
    requires forall m :: i <= m < c ==> s[m] != ':'
    ensures MimeMatchFrom(s, i) == MimeMatchFrom(s, c)
    decreases c - i
  {
    if i < c {
      MimeMatchSkips(s, i + 1, c);
    }
  }

  /** A blob: its MIME type and its bytes. */
  datatype Blob = Blob(mime: string, bytes: seq<Byte>)

  /** `dataURLToBlob`. `atob` is the browser's base64 decoder, given as a
      parameter; a missing second part reaches it as `undefined`. */
  method DataUrlToBlob(dataUrl: string, atob: string -> string) returns (blob: Blob)
    ensures var parts := Split(dataUrl, ',');
      blob == Blob(MimeOf(parts[0]), CharCodes(atob(Show(Field(parts, 1)))))
  {
    var parts := Split(dataUrl, ',');
    var mime := MimeOf(parts[0]);
    var bstr := atob(Show(Field(parts, 1)));
    var n := |bstr|;
    var u8arr := new Byte[n];
    while n > 0
      invariant 0 <= n <= |bstr|
      invariant forall j :: n <= j < |bstr| ==> u8arr[j] == ToUint8(bstr[j] as int)
    {
      n := n - 1;
      u8arr[n] := ToUint8(bstr[n] as int);
    }
    blob := Blob(mime, u8arr[..]);
  }

  // ---------------------------------------------------------------------
  // sanitizeHtmlForShopify

  /** `sanitizeHtmlForShopify`. The removal of `<script>` elements and
      `on*=` attributes is given as `removeUnsafe`; the result is what is
      left of it, trimmed. */
  function SanitizeHtmlForShopify(html: string, removeUnsafe: string -> string): (r: string)
    ensures r == [] || (!IsJsWhitespace(r[0]) && !IsJsWhitespace(r[|r| - 1]))
    ensures r == [] <==> AllWhitespace(removeUnsafe(html))
    ensures |r| <= |removeUnsafe(html)|
  {
    Trim(removeUnsafe(html))
  }

  // ---------------------------------------------------------------------
  // createShopifyProduct

  /** The product record the API returns. */
  datatype ShopifyProduct = ShopifyProduct(id: int, title: string, handle: string, adminGraphqlApiId: string)

  /** The body of an API response: either not JSON, carrying the parser's
      message, or the parsed product and the JSON text of a truthy `errors`. */
  datatype ShopifyBody = Unparseable(parseError: string) | Parsed(product: Option<ShopifyProduct>, errors: Option<string>)

  /** The outcome of `fetch`: a thrown error, or a response. */
  datatype FetchOutcome =
    | Thrown(isTypeError: bool, message: string)
    | Received(response: Response<ShopifyBody>)

  datatype ShopifyImage = ShopifyImage(attachment: string, filename: string)

  /** The `product` object posted. */
  datatype ShopifyProductPayload = ShopifyProductPayload(
    title: string,
    bodyHtml: string,
    vendor: string,
    productType: string,
    status: string,
    images: Option<seq<ShopifyImage>>)

  /** A title `createShopifyProduct` accepts: not blank, at most 255 characters. */
  predicate ValidTitle(title: string) {
    !IsBlank(title) && |title| <= MaxTitleLength
  }

  /** The check before the request: credentials, then the title. */
  function ValidateProduct(env: ShopifyEnv, title: string): (r: Option<string>)
    ensures r.None? <==> IsShopifyConfigured(env) && ValidTitle(title)
    ensures !IsShopifyConfigured(env) ==> r == Some(NotConfiguredMessage)
    ensures IsShopifyConfigured(env) && IsBlank(title) ==> r == Some(TitleRequiredMessage)
    ensures IsShopifyConfigured(env) && !IsBlank(title) && |title| > MaxTitleLength ==> r == Some(TitleTooLongMessage)
  {
    if !IsShopifyConfigured(env) then Some(NotConfiguredMessage)
    else if title == [] || |Trim(title)| == 0 then Some(TitleRequiredMessage)
    else if |title| > MaxTitleLength then Some(TitleTooLongMessage)
    else None
  }

  /** The image attachment: the text between the first and second comma of
      the data URL, when that text exists and is non-empty. */
  function Attachment(imageDataUrl: string): (a: Option<string>)
    ensures a.Some? ==> a.value != [] && ',' !in a.value
  {
    if imageDataUrl == [] then None
    else
      var base64Data := Field(Split(imageDataUrl, ','), 1);
      if Present(base64Data) then base64Data else None
  }

  /** A data URL `<header>,<payload>` attaches its payload. */
  lemma AttachmentOfDataUrl(header: string, payload: string)
    requires ',' !in header && ',' !in payload && payload != []
    ensures Attachment(header + "," + payload) == Some(payload)
  {
    assert header + "," + payload == Join([header, payload], [',']);
    SplitJoin([header, payload], ',');
  }

  /** A data URL without a comma, or with nothing after it, attaches nothing. */
  lemma NoAttachmentWithoutPayload(header: string)
    requires ',' !in header
    ensures Attachment(header) == None
    ensures Attachment(header + ",") == None
  {
    assert header + "," == Join([header, []], [',']);
    SplitJoin([header, []], ',');
  }

  /** The draft payload: trimmed title, sanitised description, the fixed
      vendor and status, the product type defaulting when absent or empty,
      and an image exactly when the data URL carries an attachment. `now` is
      `Date.now()`. */
  function DraftPayload(title: string, description: string, imageDataUrl: string, productType: Option<string>,
                        removeUnsafe: string -> string, now: int): (p: ShopifyProductPayload)
    ensures p.title == Trim(title) && (!IsBlank(title) ==> p.title != [])
    ensures p.bodyHtml == SanitizeHtmlForShopify(description, removeUnsafe)
    ensures p.vendor == Vendor && p.status == DraftStatus
    ensures p.productType == if Present(productType) then productType.value else DefaultProductType
    ensures p.images.Some? <==> Attachment(imageDataUrl).Some?
    ensures p.images.Some? ==>
      p.images.value == [ShopifyImage(Attachment(imageDataUrl).value, IntToString(now) + ".png")]
  {
    ShopifyProductPayload(
      title := Trim(title),
      bodyHtml := SanitizeHtmlForShopify(description, removeUnsafe),
      vendor := Vendor,
      productType := if Present(productType) then productType.value else DefaultProductType,
      status := DraftStatus,
      images := match Attachment(imageDataUrl)
        case Some(a) => Some([ShopifyImage(a, IntToString(now) + ".png")])
        case None => None)
  }

  /** The message for a failed response. */
  function StatusErrorMessage(status: int, statusText: string, body: ShopifyBody): string {
    if status == 401 then AuthFailedMessage
    else if status == 403 then AccessDeniedMessage
    else if status == 429 then RateLimitedMessage
    else if status == 422 then InvalidProductMessage
    else if body.Parsed? && body.errors.Some? then "Shopify API error: " + body.errors.value
    else "Shopify API error: " + IntToString(status) + " " + statusText
  }

  /** The four special statuses get four different fixed messages, whatever
      the body says; any other status gets a `Shopify API error: ` message. */
  lemma StatusErrorsDistinguish(statusText: string, body: ShopifyBody, status: int)
    ensures |{StatusErrorMessage(401, statusText, body), StatusErrorMessage(403, statusText, body),
              StatusErrorMessage(429, statusText, body), StatusErrorMessage(422, statusText, body)}| == 4
    ensures status !in {401, 403, 422, 429} ==>
      StartsWith(StatusErrorMessage(status, statusText, body), "Shopify API error: ")
  {
    assert |AuthFailedMessage| == 65 && |AccessDeniedMessage| == 73;
    assert |RateLimitedMessage| == 56 && |InvalidProductMessage| == 74;
    var prefix := "Shopify API error: ";
    if status !in {401, 403, 422, 429} {
      assert StatusErrorMessage(status, statusText, body)[..|prefix|] == prefix;
    }
  }

  /** Without an `errors` field, the generic message names the status, so
      two different statuses give two different messages. */
  lemma StatusErrorNamesStatus(statusText: string, body: ShopifyBody, status: int, other: int)
    requires status !in {401, 403, 422, 429} && other !in {401, 403, 422, 429}
    requires !(body.Parsed? && body.errors.Some?)
    requires status != other
    ensures StatusErrorMessage(status, statusText, body) != StatusErrorMessage(other, statusText, body)
  {
    var prefix := "Shopify API error: ";
    var a, b := IntToString(status), IntToString(other);
    assert StatusErrorMessage(status, statusText, body) == prefix + a + " " + statusText;
    assert StatusErrorMessage(other, statusText, body) == prefix + b + " " + statusText;
    SameFrameSameInfix(prefix, a, b, " ", statusText);
    IntToStringInjective(status, other);
  }

  lemma SameFrameSameInfix(prefix: string, a: string, b: string, sep: string, t: string)
    ensures prefix + a + sep + t == prefix + b + sep + t ==> a == b
  {
    if prefix + a + sep + t == prefix + b + sep + t {
      var m := prefix + a + sep + t;
      assert |a| == |b|;
      assert a == m[|prefix|..|prefix| + |a|];
      assert b == (prefix + b + sep + t)[|prefix|..|prefix| + |b|];
    }
  }

  /** What a received response becomes. */
  function ResponseResult(resp: Response<ShopifyBody>): (r: Result<ShopifyProduct, string>)
    ensures r.Ok? <==> resp.Ok() && resp.json.Parsed? && resp.json.product.Some? && resp.json.product.value.id != 0
    ensures r.Ok? ==> r.value == resp.json.product.value
    ensures !resp.Ok() ==> r == Err(StatusErrorMessage(resp.status, resp.statusText, resp.json))
    ensures resp.Ok() && resp.json.Parsed? && (resp.json.product.None? || resp.json.product.value.id == 0) ==>
      r == Err(NoProductMessage)
  {
    if !resp.Ok() then Err(StatusErrorMessage(resp.status, resp.statusText, resp.json))
    else match resp.json
      case Unparseable(e) => Err(e)
      case Parsed(product, _) =>
        if product.None? || product.value.id == 0 then Err(NoProductMessage) else Ok(product.value)
  }

  /** `createShopifyProduct`. The request is made only for a configured
      store and a valid title; `sent` is the payload posted. A `TypeError`
      mentioning `fetch` becomes the network message; any other thrown
      error propagates with its own message. */
  method CreateShopifyProduct(env: ShopifyEnv, title: string, description: string, imageDataUrl: string,
                              productType: Option<string>, removeUnsafe: string -> string, now: int,
                              outcome: FetchOutcome)
    returns (r: Result<ShopifyProduct, string>, sent: Option<ShopifyProductPayload>)
    ensures sent.Some? <==> ValidateProduct(env, title).None?
    ensures ValidateProduct(env, title).Some? ==> r == Err(ValidateProduct(env, title).value)
    ensures sent.Some? ==> sent.value == DraftPayload(title, description, imageDataUrl, productType, removeUnsafe, now)
    ensures sent.Some? ==> sent.value.title != [] && |sent.value.title| <= MaxTitleLength
    ensures sent.Some? && outcome.Received? ==> r == ResponseResult(outcome.response)
    ensures sent.Some? && outcome.Thrown? ==>
      r == Err(if outcome.isTypeError && Contains(outcome.message, "fetch") then NetworkErrorMessage else outcome.message)
    ensures r.Ok? ==> sent.Some? && r.value.id != 0
  {
    var invalid := ValidateProduct(env, title);
    if invalid.Some? {
      return Err(invalid.value), None;
    }
    var sanitizedDescription := SanitizeHtmlForShopify(description, removeUnsafe);
    var payload := ShopifyProductPayload(
      title := Trim(title),
      bodyHtml := sanitizedDescription,
      vendor := Vendor,
      productType := if Present(productType) then productType.value else DefaultProductType,
      status := DraftStatus,
      images := None);
    if imageDataUrl != [] {
      var base64Data := Field(Split(imageDataUrl, ','), 1);
      if Present(base64Data) {
        payload := payload.(images := Some([ShopifyImage(base64Data.value, IntToString(now) + ".png")]));
      }
    }
    sent := Some(payload);
    match outcome
    case Thrown(isTypeError, message) =>
      if isTypeError && Contains(message, "fetch") {
        r := Err(NetworkErrorMessage);
      } else {
        r := Err(message);
      }
    case Received(response) =>
      r := ResponseResult(response);
  }

  // ---------------------------------------------------------------------
  // URLs

  /** `getShopifyProductAdminUrl`: different products have different admin URLs. */
  function ProductAdminUrl(env: ShopifyEnv, productId: int): (url: string)
    ensures StartsWith(url, "https://" + Show(env.shopDomain) + "/admin/products/")
  {
    var base := "https://" + Show(env.shopDomain) + "/admin/products/";
    var url := base + IntToString(productId);
    assert url[..|base|] == base;
    url
  }

  /** `getShopifyProductStorefrontUrl`. */
  function ProductStorefrontUrl(env: ShopifyEnv, handle: string): (url: string)
    ensures StartsWith(url, "https://" + Show(env.shopDomain) + "/products/")
  {
    var base := "https://" + Show(env.shopDomain) + "/products/";
    var url := base + handle;
    assert url[..|base|] == base;
    url
  }

  /** The product id and the handle can be read back from their URLs. */
  lemma ProductUrlsInjective(env: ShopifyEnv, m: int, n: int, h1: string, h2: string)
    ensures ProductAdminUrl(env, m) == ProductAdminUrl(env, n) ==> m == n
    ensures ProductStorefrontUrl(env, h1) == ProductStorefrontUrl(env, h2) ==> h1 == h2
  {
    var admin := "https://" + Show(env.shopDomain) + "/admin/products/";
    var store := "https://" + Show(env.shopDomain) + "/products/";
    if ProductAdminUrl(env, m) == ProductAdminUrl(env, n) {
      assert (admin + IntToString(m))[|admin|..] == IntToString(m);
      assert (admin + IntToString(n))[|admin|..] == IntToString(n);
      IntToStringInjective(m, n);
    }
    if ProductStorefrontUrl(env, h1) == ProductStorefrontUrl(env, h2) {
      assert (store + h1)[|store|..] == h1;
      assert (store + h2)[|store|..] == h2;
    }
  }
}
