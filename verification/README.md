# AI product mockups to storefronts — a Dafny model

The application turns an uploaded design into product mockups with an image
model, then publishes the result to three print-on-demand storefronts:
Shopify (a draft product), Printify (upload, create, then an optional publish)
and Etsy (a listing, then its image). This project models the logic around
those calls:

- the three storefront services: configuration checks, request payloads, the
  error message chosen for each HTTP status, title and tag limits, HTML
  sanitising, and data-URL decoding;
- the publish dialog: platform selection, the per-platform publishing loop and
  the edits to ad copy and hashtags;
- the prompt panel: presets, the submit gate, the submit dispatch and the
  button label;
- the brand-kit panel and the custom-template dialog;
- the root controller's upload, generate and reset handlers.

External calls are not part of the model. Each one becomes an input: an HTTP
response, a generator outcome, the result of reading a file, `atob`, the
clock, or a publish step's outcome. The model then states what the code does
with that input.

Modules:
- `Wrappers`: `Option` and `Result`.
- `Strings`: the JavaScript string operations used.
- `Env`: environment variables.
- `Http`: responses.
- `HtmlEscape`: the entity chain.
- `DataUrl`: the image-header regex and byte conversion.
- `EtsyService`, `PrintifyService` and `ShopifyService`.
- `PublishModal`, `ControlPanel`, `BrandKit`, `CustomTemplate` and `App`.

Places where the code and the written design disagree. The model follows the
code in each case:
- The brand kit holds at most eight colours; the design document says five.
- The prompt panel has ten built-in presets; the design document says several
  dozen.
- The brand-kit panel does not check the logo's file size.
- The image generator receives `split(',')[1]`. That is the text between the
  first and the second comma, not everything after the first comma.
- Etsy's mug and poster taxonomies share the id 1066.
- The design publishes to the selected platforms in a fixed order: Shopify,
  Printify, Etsy. The code publishes in the order the platforms were ticked,
  which is the `Set`'s insertion order.
- The design enables Publish once at least one selected platform is
  configured. The code requires every selected platform to be configured.

## Model

| member | source | states |
|---|---|---|
| Strings.LeadingSpace | services/shopifyService.ts:86 | the count of leading characters `trim()` removes: all of them whitespace, and the next one is not |
| Strings.TrailingSpace | services/shopifyService.ts:86 | the count of trailing characters `trim()` removes: all of them whitespace, and the one before is not |
| Strings.Trim | services/shopifyService.ts:86 | `trim()` returns a string whose first and last characters are not ECMAScript whitespace, never longer than the input |
| Strings.TrimBlank | services/shopifyService.ts:86 | `trim()` returns the empty string exactly when the input is all whitespace |
| Strings.TrimInfix | services/shopifyService.ts:119 | trimming drops only whitespace, on both sides, and keeps the rest in place |
| Strings.TrimKeepsLower | services/etsyService.ts:272 | trimming a lower-cased tag keeps it lower-case |
| Strings.Split | App.tsx:42 | `split(',')` gives at least one part, no part holds the separator, and joining the parts with it rebuilds the input |
| Strings.SplitJoin | services/shopifyService.ts:65 | splitting undoes joining when no part holds the separator |
| Strings.DropEmpty | services/etsyService.ts:273 | `filter(t => t.length > 0)` keeps only non-empty elements, all taken from the input |
| Strings.DropEmptyNone | components/PublishModal.tsx:239 | filtering a list without empty strings changes nothing |
| Strings.RemoveChar | components/PublishModal.tsx:233 | `replace(/#/g, '')` leaves no `#` and changes nothing when there is none |
| Strings.NatToStringValue | components/ControlPanel.tsx:108 | the decimal digits printed for a count denote that count |
| Strings.IntToStringInjective | components/ControlPanel.tsx:108-110 | different numbers print differently |
| HtmlEscape.ChainIsEscape | services/etsyService.ts:319-326 | the five global replaces in that order equal escaping each character on its own, so `&` is never escaped twice |
| HtmlEscape.ChainOfOne | services/etsyService.ts:319-326 | one character through the five passes comes out as exactly its entity, or unchanged when it is not special |
| HtmlEscape.EscapeHasNoSpecials | services/printifyService.ts:397-404 | the escaped text holds no raw `<`, `>`, `"` or `'` |
| HtmlEscape.UnescapeEscape | services/etsyService.ts:321-325 | decoding the five entities gives back the original text |
| DataUrl.WordRun | services/etsyService.ts:196 | `\w+` matches the longest run of word characters |
| DataUrl.StripImageHeader | services/printifyService.ts:167 | removing the `data:image/<word>;base64,` prefix leaves a suffix, and leaves the input unchanged when it lacks `data:image/` |
| DataUrl.StripImageHeaderOf | services/etsyService.ts:196 | for `data:image/<word>;base64,<payload>` exactly the payload remains |
| DataUrl.StripPngPayload | services/etsyService.ts:196 | a PNG data URL is stripped to its payload |
| DataUrl.CharCodes | services/etsyService.ts:200-203 | one byte per character of the decoded string |
| EtsyService.GetEtsyConfigStatus | services/etsyService.ts:104-130 | configured exactly when key, shop id and token are set; otherwise the first missing one is named; when configured, the shop id is named |
| EtsyService.ListingTitle | services/etsyService.ts:265-267 | a title over 140 characters becomes its first 137 plus `...`; the result never exceeds 140; a shorter title is kept |
| EtsyService.NormalizeTag | services/etsyService.ts:272 | a normalised tag is at most 20 characters, has no upper-case letters and no surrounding whitespace |
| EtsyService.KeptFrom | services/etsyService.ts:273 | the positions of non-empty tags are increasing and in range |
| EtsyService.KeptFromComplete | services/etsyService.ts:273 | every non-empty tag's position is among the kept positions |
| EtsyService.DropEmptyPicks | services/etsyService.ts:273 | the filtered list has one entry per kept position, and entry `k` is the tag at position `k` of the kept ones |
| EtsyService.DropEmptySelects | services/etsyService.ts:273 | the filter yields exactly the non-empty tags, in their original order |
| EtsyService.NormalizedTags | services/etsyService.ts:270-272 | at most 13 tags, tag `i` being input tag `i` normalised |
| EtsyService.ValidTags | services/etsyService.ts:270-273 | at most 13 tags, each non-empty and normalised |
| EtsyService.DropEmptyShape | services/etsyService.ts:273 | filtering keeps the tag shape |
| EtsyService.ValidTagsSelection | services/etsyService.ts:270-273 | the tags sent are the normalised first 13 inputs with the empty ones removed, in order |
| EtsyService.ListingPayload | services/etsyService.ts:277-291 | the listing carries the truncated title, the given description, price and taxonomy, quantity 999, the fixed flags, and the tags only when there are any |
| EtsyService.ListingErrorsDistinguish | services/etsyService.ts:159-171 | statuses 401, 403, 404 and 429 give four different messages; 400 and 422 share the invalid-data message |
| EtsyService.ListingErrorOther | services/etsyService.ts:169-170 | any other status reports the status text |
| EtsyService.UploadErrorsDistinguish | services/etsyService.ts:228-236 | an image-upload 404 names the listing and not the shop; 401 and 429 match the listing messages; 403 falls through to the status text |
| EtsyService.CreateEtsyListing | services/etsyService.ts:136-176 | succeeds exactly when configured and the response is ok; each failure carries its message |
| EtsyService.BinaryToBytes | services/etsyService.ts:199-203 | the loop stores each character code modulo 256 at the same index |
| EtsyService.UploadEtsyListingImage | services/etsyService.ts:185-241 | not configured: an error and nothing sent; otherwise the form holds the stripped and decoded bytes, the rank and the alt text and is posted to the given listing; the result follows the response |
| EtsyService.CreateEtsyProductWithImage | services/etsyService.ts:252-314 | sends the listing payload when configured; succeeds exactly when both the listing and the image succeed; the image step is skipped after a listing failure, and otherwise posts to the listing just created |
| EtsyService.SanitizeHtmlForEtsy | services/etsyService.ts:319-326 | the result has no raw HTML specials and decodes back to the input |
| PrintifyService.GetPrintifyConfigStatus | services/printifyService.ts:131-151 | configured exactly when token and shop id are set; otherwise the missing one is named |
| PrintifyService.ErrorMessagesAgree | services/printifyService.ts:187-192 | 401 and 429 give the same message in upload, create and publish; 422 is special only for create; publish tells 401, 404, 409 and 429 apart |
| PrintifyService.UploadImageToPrintify | services/printifyService.ts:158-198 | succeeds exactly when configured and the response is ok; otherwise the upload's message |
| PrintifyService.UploadRequest | services/printifyService.ts:167-179 | the body carries the file name and the base64 text without its image header |
| PrintifyService.CreatePrintifyProduct | services/printifyService.ts:204-239 | succeeds exactly when configured and ok; otherwise the create message |
| PrintifyService.PublishPrintifyProduct | services/printifyService.ts:245-288 | succeeds exactly when configured and ok; otherwise the publish message |
| PrintifyService.DefaultVariantIds | services/printifyService.ts:380-392 | never empty; unlisted blueprints fall back to variant 45740 |
| PrintifyService.UnlistedBlueprintsFallBack | services/printifyService.ts:383-391 | canvas, phone case and sticker get the fallback variant |
| PrintifyService.Cents | services/printifyService.ts:328 | `Math.round(price * 100)` is within half a cent of the exact amount |
| PrintifyService.ProductPayload | services/printifyService.ts:321-350 | one enabled variant per id at the rounded price, and one front print area over all variant ids holding the uploaded image centred at scale 1 |
| PrintifyService.PayloadVariantsCovered | services/printifyService.ts:317-333 | every variant of the payload is listed in its print area, and every listed id has a variant |
| PrintifyService.CreateAndPublishProduct | services/printifyService.ts:299-374 | succeeds exactly when configured, uploaded and created; a failed publish is not fatal and leaves no publish result; the publish is posted for the product just created |
| PrintifyService.SanitizeHtmlForPrintify | services/printifyService.ts:397-404 | the same escaping as Etsy: no raw specials, and it decodes back |
| ShopifyService.GetShopifyConfigStatus | services/shopifyService.ts:38-58 | configured exactly when domain and token are set; the message names what is missing, or the connected domain |
| ShopifyService.ApiVersion | services/shopifyService.ts:6 | an unset or empty version falls back to `2024-01` |
| ShopifyService.SemicolonFrom | services/shopifyService.ts:66 | the lazy `.*?;` stops at the first `;` with no line terminator before it |
| ShopifyService.MimeMatchFrom | services/shopifyService.ts:66 | a captured group holds no `;` and no line terminator |
| ShopifyService.MimeOf | services/shopifyService.ts:66 | the MIME type is never empty and never holds `;`, because an empty capture falls back to `image/png` |
| ShopifyService.MimeOfHeader | services/shopifyService.ts:66 | for `data:<mime>;...` the MIME type is `<mime>` |
| ShopifyService.SemicolonReaches | services/shopifyService.ts:66 | the search finds the first `;` when no line terminator precedes it |
| ShopifyService.MimeMatchSkips | services/shopifyService.ts:66 | the match starts at the first `:` |
| ShopifyService.DataUrlToBlob | services/shopifyService.ts:64-74 | the downward loop fills each byte with the character code of the decoded second field; the type is the header's MIME |
| ShopifyService.SanitizeHtmlForShopify | services/shopifyService.ts:80-87 | the text, after the unsafe parts are removed, is trimmed |
| ShopifyService.ValidateProduct | services/shopifyService.ts:101-112 | rejects an unconfigured store, then a blank title, then a title over 255 characters; accepts otherwise |
| ShopifyService.Attachment | services/shopifyService.ts:130-138 | an image is attached only when the second comma field is non-empty |
| ShopifyService.AttachmentOfDataUrl | services/shopifyService.ts:132 | for `header,payload` the payload is attached |
| ShopifyService.NoAttachmentWithoutPayload | services/shopifyService.ts:133 | no comma, or nothing after it, means no image |
| ShopifyService.DraftPayload | services/shopifyService.ts:114-139 | a draft with the trimmed title, the sanitised body, vendor `AI Generated`, the product type or `Print on Demand`, and the image named after the clock |
| ShopifyService.StatusErrorsDistinguish | services/shopifyService.ts:152-175 | 401, 403, 422 and 429 give four different messages; other statuses give the generic message |
| ShopifyService.StatusErrorNamesStatus | services/shopifyService.ts:154 | the generic message names the status, so two such statuses read differently |
| ShopifyService.ResponseResult | services/shopifyService.ts:149-185 | succeeds exactly on an ok response carrying a product with a non-zero id |
| ShopifyService.CreateShopifyProduct | services/shopifyService.ts:94-202 | sends the draft payload exactly when validation passes; a thrown TypeError that mentions `fetch` becomes the network message; success carries a product id |
| ShopifyService.ProductAdminUrl | services/shopifyService.ts:207-209 | the admin URL lies under the store's `/admin/products/` |
| ShopifyService.ProductStorefrontUrl | services/shopifyService.ts:214-216 | the storefront URL lies under the store's `/products/` |
| ShopifyService.ProductUrlsInjective | services/shopifyService.ts:207-216 | different products get different URLs |
| PublishModal.Record.Set | components/PublishModal.tsx:209-210 | updating one platform's entry leaves the others unchanged |
| PublishModal.ConfigStatuses | components/PublishModal.tsx:104-108 | each platform's status reports its own configuration |
| PublishModal.Attempt | components/PublishModal.tsx:124-184 | an unconfigured platform fails with `<Name> is not configured`; an `Error` keeps its message; any other throw gets `Failed to publish to <id>. Please try again.` |
| PublishModal.SettleNext | components/PublishModal.tsx:195-211 | after one more platform is settled, every attempted platform is settled and every other one untouched |
| PublishModal.SettledExclusive | components/PublishModal.tsx:197-211 | a settled platform has its link or its error, never both |
| PublishModal.Settle | components/PublishModal.tsx:195-211 | one platform's attempt records its URL or error and status, and changes no other platform |
| PublishModal.Toggle | components/PublishModal.tsx:114-122 | toggling flips only that platform's membership and never duplicates; an absent platform is appended at the end |
| PublishModal.Remove | components/PublishModal.tsx:117 | deleting removes the platform and keeps the others |
| PublishModal.ToggleTwice | components/PublishModal.tsx:114-122 | toggling twice restores the selected set, and the exact order when the platform was absent |
| PublishModal.RemoveLast | components/PublishModal.tsx:119 | deleting a platform just added restores the selection |
| PublishModal.RemoveConcat | components/PublishModal.tsx:117 | deleting keeps order: deleting from a concatenation concatenates the parts with the platform deleted |
| PublishModal.RemoveAbsent | components/PublishModal.tsx:117 | deleting a platform that is not selected changes nothing |
| PublishModal.ToggleOffAt | components/PublishModal.tsx:114-122 | unticking the platform at position k leaves the platforms before and after it, in order |
| PublishModal.CanPublishMeansConfigured | components/PublishModal.tsx:240-244 | when publishing is allowed, at least one platform is selected and every selected one is configured |
| PublishModal.ReplaceAt | components/PublishModal.tsx:217-221 | the edited line changes and no other |
| PublishModal.AppendEmpty | components/PublishModal.tsx:223-225 | an empty line is added at the end |
| PublishModal.RemoveAt | components/PublishModal.tsx:227-230 | the line at the index is removed and the rest keep their order; an index out of range changes nothing |
| PublishModal.AdCopyEditsUndo | components/PublishModal.tsx:217-230 | removing the line just added, or rewriting a line with its own text, changes nothing |
| PublishModal.ParseHashtags | components/PublishModal.tsx:233 | parsing gives at least one token and no token holds `#` |
| PublishModal.Hashed | components/PublishModal.tsx:239 | each tag gets a `#` prefix |
| PublishModal.FormatThenParse | components/PublishModal.tsx:233-239 | for tags without spaces or `#`, parsing the formatted text gives back the non-empty tags |
| PublishModal.ParseHashed | components/PublishModal.tsx:233 | parsing a `#`-joined list of clean tags gives the tags |
| PublishModal.RemoveHashPrefix | components/PublishModal.tsx:233 | removing `#` from `#tag` gives `tag` |
| PublishModal.PublishModalState.constructor | components/PublishModal.tsx:48-80 | the initial state: Shopify selected, empty statuses, price 25 |
| PublishModal.PublishModalState.Open | components/PublishModal.tsx:96-112 | opening clears statuses, errors, URLs and the compliance tick, and loads the configuration statuses and details; loading stays on exactly when the fetch was needed and rejected |
| PublishModal.PublishModalState.FetchDetails | components/PublishModal.tsx:82-94 | the initial details win, else the fetched ones, else empty details, and loading ends; a rejected fetch leaves empty details with loading still on; nothing else changes |
| PublishModal.PublishModalState.TogglePlatform | components/PublishModal.tsx:114-122 | the selection is toggled and nothing else changes |
| PublishModal.PublishModalState.HandlePublish | components/PublishModal.tsx:186-215 | ignored while publishing; otherwise each selected platform, in order, ends with its URL and a published status or its error and `✗ Failed`; other platforms have no error or URL |
| PublishModal.PublishModalState.HandleAdCopyChange | components/PublishModal.tsx:217-221 | the details get the edited ad copy; every other field is unchanged |
| PublishModal.PublishModalState.HandleAddAdCopy | components/PublishModal.tsx:223-225 | the details get an extra empty line; every other field is unchanged |
| PublishModal.PublishModalState.HandleRemoveAdCopy | components/PublishModal.tsx:227-230 | the details lose the line at the index; every other field is unchanged |
| PublishModal.PublishModalState.HandleHashtagsChange | components/PublishModal.tsx:232-235 | the hashtags become the parsed tokens; every other field is unchanged |
| ControlPanel.Catalog | components/ControlPanel.tsx:35-46 | the catalogue has ten presets, preset `i` taking its id, name and template from row `i` |
| ControlPanel.PresetIdsDistinct | components/ControlPanel.tsx:35-46 | the ten preset ids are pairwise different |
| ControlPanel.AspectRatiosDistinct | components/ControlPanel.tsx:49 | there are five aspect ratios, pairwise different |
| ControlPanel.PresetConstants | components/ControlPanel.tsx:35-49 | the catalogue `MERCH_PRESETS` has ten presets with distinct ids, whatever their templates; variations are exactly 1 to 4; five distinct aspect ratios |
| ControlPanel.CanSubmitRules | components/ControlPanel.tsx:72-74 | edit mode needs an image and a preset or non-blank prompt; generate mode needs a non-blank prompt; neither while loading; an open gate always dispatches |
| ControlPanel.WithoutId | components/ControlPanel.tsx:79 | filtering by id removes that id, keeps every other id, and keeps ids unique |
| ControlPanel.HandlePresetClick | components/ControlPanel.tsx:76-85 | a click flips the preset's membership, appends when it was absent, changes no other id and never duplicates one |
| ControlPanel.DeselectKeepsOrder | components/ControlPanel.tsx:78-79 | deselecting removes exactly that entry and keeps the others in order |
| ControlPanel.ClickTwice | components/ControlPanel.tsx:76-85 | clicking an absent preset twice restores the selection |
| ControlPanel.PromptEffect | components/ControlPanel.tsx:96-104 | in edit mode one preset sets its template and any other count clears the prompt; generate mode keeps it |
| ControlPanel.SinglePresetFlow | components/ControlPanel.tsx:72-104 | in edit mode with an image, selecting any one preset from nothing fills the prompt with its template and opens the gate; deselecting it empties the selection and the prompt |
| ControlPanel.HandleSubmit | components/ControlPanel.tsx:87-94 | nothing while loading; otherwise the generator of the current mode |
| ControlPanel.ButtonTextCounts | components/ControlPanel.tsx:106-112 | counts above one are named in the label, so different counts read differently; otherwise `Generate Image` or `Generate` |
| BrandKit.AddColor | components/BrandKitPanel.tsx:35-40 | the upper-cased colour is appended only when non-empty, new and fewer than 8 are listed; otherwise nothing changes; the logo is kept; the cap and uniqueness are preserved |
| BrandKit.AddColorIdempotent | components/BrandKitPanel.tsx:37 | adding the same colour twice adds it once |
| BrandKit.RemoveColor | components/BrandKitPanel.tsx:46-48 | the colour is gone, every other colour stays, the logo is kept, the kit stays well formed |
| BrandKit.Without | components/BrandKitPanel.tsx:47 | the filter removes the colour and keeps the others |
| BrandKit.WithoutConcat | components/BrandKitPanel.tsx:47 | the filter keeps order: filtering a concatenation concatenates the filtered parts |
| BrandKit.WithoutSplice | components/BrandKitPanel.tsx:47 | removing a colour listed once between other colours joins what came before it to what came after it |
| BrandKit.WithoutAt | components/BrandKitPanel.tsx:47 | in a list without repeats, removing the colour at position k leaves exactly the colours before and after it, in order |
| BrandKit.RemoveColorAt | components/BrandKitPanel.tsx:46-48 | on a well-formed kit, removing the colour at position k leaves the other colours in their places |
| BrandKit.AddThenRemove | components/BrandKitPanel.tsx:35-48 | removing a colour just added restores the kit, order included |
| BrandKit.RemoveAbsentColor | components/BrandKitPanel.tsx:46-48 | removing an unlisted colour changes nothing |
| BrandKit.HandleLogoUpload | components/BrandKitPanel.tsx:20-29 | a read file becomes the logo; no file or a failed read leaves the kit as it was |
| BrandKit.RemoveLogo | components/BrandKitPanel.tsx:31-33 | the logo is cleared and the colours are kept |
| BrandKit.LogoRoundTrip | components/BrandKitPanel.tsx:20-33 | uploading and then removing a logo is the same as removing it |
| CustomTemplate.SaveDecision | components/CustomTemplateModal.tsx:23-29 | saves the fields as typed exactly when neither is blank; otherwise `Both name and prompt are required.` |
| CustomTemplate.SavedIsNonBlank | components/CustomTemplateModal.tsx:24 | a saved name and prompt have visible text |
| CustomTemplate.BlankRejected | components/CustomTemplateModal.tsx:24-26 | whitespace-only fields are rejected |
| CustomTemplate.CustomTemplateModal.Open | components/CustomTemplateModal.tsx:15-21 | opening clears name, template and error |
| CustomTemplate.CustomTemplateModal.HandleSave | components/CustomTemplateModal.tsx:23-29 | a rejected save sets the message and saves nothing; an accepted one hands over the untrimmed fields; the fields never change |
| CustomTemplate.SaveAfterReopen | components/CustomTemplateModal.tsx:15-29 | a rejected save leaves the message until the dialog reopens; a later filled-in save goes through |
| App.RequestFor | App.tsx:32-43 | a call is made exactly when an image, a non-empty URL and a non-empty prompt exist; it carries the second comma field, the file's type and the prompt |
| App.RequestCarriesPayload | App.tsx:42 | for `header,payload` the generator receives the payload |
| App.RequestWithoutComma | App.tsx:42 | a URL without a comma gives the generator `undefined` |
| App.AppController.HandleImageUpload | App.tsx:18-29 | keeps the file, clears the result and the error, and stores the URL; a failed read leaves no URL and `Failed to read image file.` |
| App.AppController.HandleGenerate | App.tsx:32-50 | the guard only sets its message; otherwise the request is sent, the result or `Failed to generate image. Please try again.` is stored, and loading ends false |
| App.AppController.HandleReset | App.tsx:53-60 | every field returns to its initial value whatever the state, so resetting twice equals resetting once |
| App.ResetThenGenerate | App.tsx:32-60 | after a reset, generating only sets the guard message |

## Left out

- Network calls (`fetch`), JSON encoding and `console` logging are not modelled. Each HTTP exchange is an input `Response` value: status, status text, body text and parsed body.
- `atob` is a function parameter; base64 decoding is not modelled, and neither is the exception it throws on malformed input.
- Shopify's `<script>` and `on*=` regex removal is a function parameter. The model covers only the trim that follows it.
- `Date.now()` is a parameter.
- `fileToBase64` (reading a file) is an input outcome.
- The image generator (`geminiService`) and the publish steps in the dialog are input outcomes. `Attempt` ties each step to the services only through the credentials check: a step of an unconfigured platform fails with that service's message. The success URLs (the Shopify admin URL, the Printify product page and the Etsy listing URL) and the arguments each step passes to its service (the blueprint and print provider, the taxonomy, the product type) are not tied to the services.
- `ToLower` and `ToUpper` map ASCII letters only. JavaScript's full Unicode case mapping is not modelled.
- String lengths count code points, not UTF-16 code units. The 137, 140, 20 and 255 limits are therefore stated over code points.
- Prices are real numbers. IEEE double rounding of `price * 100` is not modelled; `Cents` is `Math.round` on exact reals.
- React rendering, effect scheduling and the intermediate `…ing` statuses shown during an `await` are not modelled. Only each handler's final state is modelled.
- The publish dialog's `onGetProductDetails` call is not modelled. How it settled, with an answer or by rejecting, is a parameter of `FetchDetails` and `Open`.
- `ShopifyModal` and the other display components are not part of this model.
- PublishModal.ReplaceAt: requires the index to be in range. JavaScript would extend the array with holes for an index past the end, and the dialog never produces such an index.
- PublishModal.PublishModalState.HandleAdCopyChange: requires the index to be in range, for the same reason as `ReplaceAt`, which it uses.
- PublishModal.PublishModalState.HandlePublish: leaves the status of unselected platforms as it was, as the code does. It does not model the concurrent re-entry that `isPublishing` guards against across `await`s.
- App.AppController.HandleGenerate: the guard tests the prompt without trimming, as the code does. The generator's thrown error is reduced to failure; its text is not kept.
