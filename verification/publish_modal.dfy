/** The publish dialog: which platforms are selected, the per-platform
    publication loop with its status, error and link records, the gate on
    the publish button, and the edits of the generated marketing copy. */
module PublishModal {
  import opened Wrappers
  import opened Strings
  import opened Env
  import ShopifyService
  import PrintifyService
  import EtsyService

  datatype Platform = Shopify | Printify | Etsy

  /** The platform's key, as the record keys and the fallback message spell it. */
  function PlatformId(p: Platform): string {
    match p
    case Shopify => "shopify"
    case Printify => "printify"
    case Etsy => "etsy"
  }

  /** The platform's display name. */
  function PlatformName(p: Platform): string {
    match p
    case Shopify => "Shopify"
    case Printify => "Printify"
    case Etsy => "Etsy"
  }

  /** A `Record<Platform, T>`. */
  datatype Record<T> = Record(shopify: T, printify: T, etsy: T) {
    function Get(p: Platform): T {
      match p
      case Shopify => shopify
      case Printify => printify
      case Etsy => etsy
    }

    /** `{ ...prev, [p]: v }`: only the entry of `p` changes. */
    function Set(p: Platform, v: T): (r: Record<T>)
      ensures r.Get(p) == v
      ensures forall q :: q != p ==> r.Get(q) == Get(q)
    {
      match p
      case Shopify => this.(shopify := v)
      case Printify => this.(printify := v)
      case Etsy => this.(etsy := v)
    }
  }

  function Uniform<T>(v: T): Record<T> {
    Record(v, v, v)
  }

  /** The three services' environments. */
  datatype Envs = Envs(shopify: ShopifyService.ShopifyEnv, printify: PrintifyService.PrintifyEnv, etsy: EtsyService.EtsyEnv)

  predicate Configured(envs: Envs, p: Platform) {
    match p
    case Shopify => ShopifyService.IsShopifyConfigured(envs.shopify)
    case Printify => PrintifyService.IsPrintifyConfigured(envs.printify)
    case Etsy => EtsyService.IsEtsyConfigured(envs.etsy)
  }

  /** The statuses the dialog shows when it opens. */
  function ConfigStatuses(envs: Envs): (r: Record<ConfigStatus>)
    ensures forall p :: r.Get(p).configured == Configured(envs, p)
  {
    Record(ShopifyService.GetShopifyConfigStatus(envs.shopify),
           PrintifyService.GetPrintifyConfigStatus(envs.printify),
           EtsyService.GetEtsyConfigStatus(envs.etsy))
  }

  /** What a platform's publish step does once credentials are present:
      it returns the product's link, throws an `Error`, or throws something
      else. */
  datatype PublishOutcome = Published(url: string) | ThrewError(message: string) | ThrewOther

  const FailedStatus: string := "✗ Failed"

  function ProgressStatus(p: Platform): string {
    match p
    case Shopify => "Creating product in Shopify..."
    case Printify => "Uploading design to Printify..."
    case Etsy => "Creating listing on Etsy..."
  }

  function PublishedStatus(p: Platform): string {
    "✓ Published to " + PlatformName(p)
  }

  /** The link or the error message a platform ends with: an unconfigured
      platform fails before its step runs; a thrown non-`Error` gets the
      fallback message. */
  function Attempt(envs: Envs, step: Platform -> PublishOutcome, p: Platform): (r: Result<string, string>)
    ensures !Configured(envs, p) ==> r == Err(PlatformName(p) + " is not configured")
    ensures Configured(envs, p) && step(p).Published? ==> r == Ok(step(p).url)
    ensures Configured(envs, p) && step(p).ThrewError? ==> r == Err(step(p).message)
    ensures Configured(envs, p) && step(p).ThrewOther? ==>
      r == Err("Failed to publish to " + PlatformId(p) + ". Please try again.")
  {
    if !Configured(envs, p) then Err(PlatformName(p) + " is not configured")
    else match step(p)
      case Published(url) => Ok(url)
      case ThrewError(message) => Err(message)
      case ThrewOther => Err("Failed to publish to " + PlatformId(p) + ". Please try again.")
  }

  /** Platform `p` ended as its attempt says: its link and success status,
      or its error and the failure status. */
  predicate Settled(envs: Envs, step: Platform -> PublishOutcome, p: Platform,
                    status: Record<string>, errors: Record<Option<string>>, urls: Record<Option<string>>) {
    match Attempt(envs, step, p)
    case Ok(url) => urls.Get(p) == Some(url) && errors.Get(p) == None && status.Get(p) == PublishedStatus(p)
    case Err(e) => errors.Get(p) == Some(e) && urls.Get(p) == None && status.Get(p) == FailedStatus
  }

  /** Platform `p` has no error, no link, and the status it had before. */
  predicate Untouched(p: Platform, status: Record<string>, errors: Record<Option<string>>,
                      urls: Record<Option<string>>, before: Record<string>) {
    errors.Get(p) == None && urls.Get(p) == None && status.Get(p) == before.Get(p)
  }

  /** One iteration of the publication loop: the progress status when the
      credentials are present, then the outcome recorded for `p` alone. */
  function Settle(envs: Envs, step: Platform -> PublishOutcome, p: Platform,
                  status: Record<string>, errors: Record<Option<string>>, urls: Record<Option<string>>)
    : (r: (Record<string>, Record<Option<string>>, Record<Option<string>>))
    requires errors.Get(p) == None && urls.Get(p) == None
    ensures Settled(envs, step, p, r.0, r.1, r.2)
    ensures forall q :: q != p ==> r.0.Get(q) == status.Get(q) && r.1.Get(q) == errors.Get(q) && r.2.Get(q) == urls.Get(q)
  {
    var inProgress := if Configured(envs, p) then status.Set(p, ProgressStatus(p)) else status;
    match Attempt(envs, step, p)
    case Ok(url) => (inProgress.Set(p, PublishedStatus(p)), errors, urls.Set(p, Some(url)))
    case Err(e) => (inProgress.Set(p, FailedStatus), errors.Set(p, Some(e)), urls)
  }

  /** One more platform settled: the attempted ones are settled and the rest untouched. */
  lemma SettleNext(envs: Envs, step: Platform -> PublishOutcome, attempted: seq<Platform>, p: Platform,
                   status: Record<string>, errors: Record<Option<string>>, urls: Record<Option<string>>,
                   before: Record<string>)
    requires p !in attempted && errors.Get(p) == None && urls.Get(p) == None
    requires forall q :: q in attempted ==> Settled(envs, step, q, status, errors, urls)
    requires forall q :: q !in attempted ==> Untouched(q, status, errors, urls, before)
    ensures var r := Settle(envs, step, p, status, errors, urls);
      && (forall q :: q in attempted + [p] ==> Settled(envs, step, q, r.0, r.1, r.2))
      && (forall q :: q !in attempted + [p] ==> Untouched(q, r.0, r.1, r.2, before))
  {
    var r := Settle(envs, step, p, status, errors, urls);
    forall q | q in attempted + [p] ensures Settled(envs, step, q, r.0, r.1, r.2) {
      if q != p {
        assert q in attempted;
        assert r.0.Get(q) == status.Get(q) && r.1.Get(q) == errors.Get(q) && r.2.Get(q) == urls.Get(q);
      }
    }
  }

  /** A settled platform has its link or its error, never both. */
  lemma SettledExclusive(envs: Envs, step: Platform -> PublishOutcome, p: Platform,
                         status: Record<string>, errors: Record<Option<string>>, urls: Record<Option<string>>)
    requires Settled(envs, step, p, status, errors, urls)
    ensures errors.Get(p).Some? <==> urls.Get(p).None?
  {
  }

  predicate NoDuplicates<T(==)>(s: seq<T>) {
    forall i, j :: 0 <= i < j < |s| ==> s[i] != s[j]
  }

  /** The set after `togglePlatform(p)`, in insertion order. */
  function Toggle(s: seq<Platform>, p: Platform): (r: seq<Platform>)
    ensures p in r <==> p !in s
    ensures forall q :: q != p ==> (q in r <==> q in s)
    ensures NoDuplicates(s) ==> NoDuplicates(r)
    ensures p !in s ==> r == s + [p]
  {
    if p in s then Remove(s, p) else s + [p]
  }

  /** `s` without `p`, the others in order. */
  function Remove(s: seq<Platform>, p: Platform): (r: seq<Platform>)
    ensures p !in r
    ensures forall q :: q != p ==> (q in r <==> q in s)
    ensures NoDuplicates(s) ==> NoDuplicates(r)
    ensures |r| <= |s|
  {
    if |s| == 0 then []
    else if s[0] == p then Remove(s[1..], p)
    else
      var r := Remove(s[1..], p);
      assert NoDuplicates(s) ==> s[0] !in s[1..] && NoDuplicates(s[1..]);
      assert NoDuplicates(s) ==> s[0] !in r;
      [s[0]] + r
  }

  /** Toggling a platform twice restores the selection as a set, and
      restores the sequence itself when the platform was absent; toggling a
      present platform twice moves it to the end. */
  lemma ToggleTwice(s: seq<Platform>, p: Platform)
    requires NoDuplicates(s)
    ensures (set q | q in Toggle(Toggle(s, p), p)) == (set q | q in s)
    ensures p !in s ==> Toggle(Toggle(s, p), p) == s
    ensures p in s ==> Toggle(Toggle(s, p), p) == Remove(s, p) + [p]
  {
    if p !in s {
      RemoveLast(s, p);
    }
  }

  lemma {:induction false} RemoveLast(s: seq<Platform>, p: Platform)
    requires p !in s
    ensures Remove(s + [p], p) == s
  {
    if |s| > 0 {
      assert (s + [p])[1..] == s[1..] + [p];
      RemoveLast(s[1..], p);
    } else {
      assert [p][1..] == [];
    }
  }

  /** Removal keeps order: removing from a concatenation removes from each
      part and concatenates the results. */
  lemma {:induction false} RemoveConcat(a: seq<Platform>, b: seq<Platform>, p: Platform)
    ensures Remove(a + b, p) == Remove(a, p) + Remove(b, p)
  {
    if |a| > 0 {
      assert (a + b)[1..] == a[1..] + b;
      RemoveConcat(a[1..], b, p);
    } else {
      assert a + b == b;
    }
  }

  lemma {:induction false} RemoveAbsent(s: seq<Platform>, p: Platform)
    requires p !in s
    ensures Remove(s, p) == s
  {
    if |s| > 0 {
      RemoveAbsent(s[1..], p);
    }
  }

  /** Unticking the platform at position `k` of a selection without repeats
      leaves the platforms before it and after it, in their order. */
  lemma ToggleOffAt(s: seq<Platform>, k: nat)
    requires NoDuplicates(s) && k < |s|
    ensures Toggle(s, s[k]) == s[..k] + s[k+1..]
  {
    var p, pre, post := s[k], s[..k], s[k+1..];
    forall i | 0 <= i < |pre| ensures pre[i] != p {
      assert pre[i] == s[i];
    }
    forall i | 0 <= i < |post| ensures post[i] != p {
      assert post[i] == s[k + 1 + i];
    }
    assert s == pre + [p] + post;
    var one: seq<Platform> := [p];
    assert one[1..] == [];
    assert Remove(one, p) == Remove(one[1..], p);
    RemoveConcat(pre, one, p);
    RemoveConcat(pre + one, post, p);
    RemoveAbsent(pre, p);
    RemoveAbsent(post, p);
  }

  /** `canPublish`. */
  predicate CanPublish(complianceChecked: bool, selected: seq<Platform>, isPublishing: bool, isLoading: bool,
                       statuses: Record<ConfigStatus>) {
    complianceChecked && |selected| > 0 && !isPublishing && !isLoading
    && forall p :: p in selected ==> statuses.Get(p).configured
  }

  /** With the statuses read when the dialog opened, the button is enabled
      only when no selected platform will fail for lack of credentials. */
  lemma CanPublishMeansConfigured(envs: Envs, step: Platform -> PublishOutcome, complianceChecked: bool,
                                  selected: seq<Platform>, isPublishing: bool, isLoading: bool)
    requires CanPublish(complianceChecked, selected, isPublishing, isLoading, ConfigStatuses(envs))
    ensures |selected| > 0
    ensures forall p :: p in selected ==> Configured(envs, p)
    ensures forall p :: p in selected && step(p).Published? ==> Attempt(envs, step, p) == Ok(step(p).url)
  {
    forall p | p in selected ensures Configured(envs, p) {
      assert ConfigStatuses(envs).Get(p).configured;
    }
  }

  /** The details being edited. */
  datatype ProductDetails = ProductDetails(title: string, description: string, socialMediaCaption: string,
                                           adCopy: seq<string>, hashtags: seq<string>)

  const EmptyDetails: ProductDetails := ProductDetails("", "", "", [], [])

  /** How the awaited `onGetProductDetails` call settled: with an answer
      (possibly none) or by rejecting. */
  datatype Fetched = Answered(answer: Option<ProductDetails>) | Rejected {
    /** The details the dialog shows once the call has settled. */
    function Outcome(): ProductDetails {
      if Rejected? then EmptyDetails else answer.GetOr(EmptyDetails)
    }
  }

  /** `handleAdCopyChange`: entry `i` becomes `v`, nothing else changes. */
  function ReplaceAt(s: seq<string>, i: nat, v: string): (r: seq<string>)
    requires i < |s|
    ensures |r| == |s| && r[i] == v
    ensures forall j :: 0 <= j < |s| && j != i ==> r[j] == s[j]
  {
    s[i := v]
  }

  /** `handleAddAdCopy`: one empty entry at the end. */
  function AppendEmpty(s: seq<string>): (r: seq<string>)
    ensures |r| == |s| + 1 && r[..|s|] == s && r[|s|] == ""
  {
    s + [""]
  }

  /** `handleRemoveAdCopy`: every entry whose position is not `i`, in order. */
  function RemoveAt(s: seq<string>, i: int): (r: seq<string>)
    ensures 0 <= i < |s| ==> |r| == |s| - 1
    ensures 0 <= i < |s| ==> forall j :: 0 <= j < |r| ==> r[j] == if j < i then s[j] else s[j + 1]
    ensures !(0 <= i < |s|) ==> r == s
  {
    if 0 <= i < |s| then s[..i] + s[i + 1..] else s
  }

  /** Adding an entry and then removing it restores the list; writing an
      entry's own value back changes nothing. */
  lemma AdCopyEditsUndo(s: seq<string>, i: nat)
    ensures RemoveAt(AppendEmpty(s), |s|) == s
    ensures i < |s| ==> ReplaceAt(s, i, s[i]) == s
  {
    assert AppendEmpty(s)[..|s|] == s;
  }

  /** `handleHashtagsChange`: the words between spaces, each without `#`. */
  function ParseHashtags(text: string): (tags: seq<string>)
    ensures |tags| >= 1
    ensures forall i :: 0 <= i < |tags| ==> '#' !in tags[i]
  {
    var parts := Split(text, ' ');
    seq(|parts|, i requires 0 <= i < |parts| => RemoveChar(parts[i], '#'))
  }

  function Hashed(tags: seq<string>): (r: seq<string>)
    ensures |r| == |tags|
    ensures forall i :: 0 <= i < |tags| ==> r[i] == "#" + tags[i]
  {
    seq(|tags|, i requires 0 <= i < |tags| => "#" + tags[i])
  }

  /** `formattedHashtags`: the non-empty tags, each after `#`, joined by spaces. */
  function FormatHashtags(tags: seq<string>): string {
    Join(Hashed(DropEmpty(tags)), " ")
  }

  /** For tags without spaces or `#`, parsing the formatted text gives back
      the non-empty tags in order. */
  lemma FormatThenParse(tags: seq<string>)
    requires forall i :: 0 <= i < |tags| ==> ' ' !in tags[i] && '#' !in tags[i]
    ensures DropEmpty(ParseHashtags(FormatHashtags(tags))) == DropEmpty(tags)
  {
    var d := DropEmpty(tags);
    if |d| == 0 {
      assert FormatHashtags(tags) == [];
      ParseNothing();
    } else {
      DropEmptyKeepsClean(tags);
      ParseHashed(d);
      DropEmptyNone(d);
    }
  }

  lemma ParseNothing()
    ensures DropEmpty(ParseHashtags([])) == []
  {
    assert Split([], ' ') == [[]];
  }

  lemma DropEmptyKeepsClean(tags: seq<string>)
    requires forall i :: 0 <= i < |tags| ==> ' ' !in tags[i] && '#' !in tags[i]
    ensures forall k :: 0 <= k < |DropEmpty(tags)| ==> ' ' !in DropEmpty(tags)[k] && '#' !in DropEmpty(tags)[k]
  {
    var d := DropEmpty(tags);
    forall k | 0 <= k < |d| ensures ' ' !in d[k] && '#' !in d[k] {
      var j :| 0 <= j < |tags| && tags[j] == d[k];
    }
  }

  /** Parsing undoes formatting on a non-empty list of non-empty tags. */
  lemma ParseHashed(d: seq<string>)
    requires |d| > 0
    requires forall k :: 0 <= k < |d| ==> ' ' !in d[k] && '#' !in d[k]
    ensures ParseHashtags(Join(Hashed(d), " ")) == d
  {
    var h := Hashed(d);
    forall k | 0 <= k < |h| ensures ' ' !in h[k] {
      assert h[k] == ['#'] + d[k];
    }
    SplitJoin(h, ' ');
    var parsed := ParseHashtags(Join(h, " "));
    forall k | 0 <= k < |d| ensures parsed[k] == d[k] {
      RemoveHashPrefix(d[k]);
    }
  }

  lemma RemoveHashPrefix(t: string)
    requires '#' !in t
    ensures RemoveChar("#" + t, '#') == t
  {
    assert ("#" + t)[1..] == t;
  }

  /** The dialog's state. */
  class PublishModalState {
    var selectedPlatforms: seq<Platform>
    var publishingStatus: Record<string>
    var publishErrors: Record<Option<string>>
    var publishSuccessUrls: Record<Option<string>>
    var isPublishing: bool
    var complianceChecked: bool
    var isLoading: bool
    var platformStatuses: Record<ConfigStatus>
    var details: ProductDetails
    var price: real

    /** A `Set` holds each platform once. */
    ghost predicate Valid()
      reads this
    {
      NoDuplicates(selectedPlatforms)
    }

    constructor ()
      ensures Valid()
      ensures selectedPlatforms == [Shopify]
      ensures publishingStatus == Uniform("") && publishErrors == Uniform(None) && publishSuccessUrls == Uniform(None)
      ensures !isPublishing && !complianceChecked && !isLoading
      ensures platformStatuses == Uniform(ConfigStatus(false, ""))
      ensures details == EmptyDetails && price == 25.0
    {
      selectedPlatforms := [Shopify];
      publishingStatus := Uniform("");
      publishErrors := Uniform(None);
      publishSuccessUrls := Uniform(None);
      isPublishing := false;
      complianceChecked := false;
      isLoading := false;
      platformStatuses := Uniform(ConfigStatus(false, ""));
      details := EmptyDetails;
      price := 25.0;
    }

    /** The effect of opening the dialog, followed by the details fetch it
        starts. */
    method Open(envs: Envs, initialDetails: Option<ProductDetails>, fetched: Fetched)
      modifies this
      ensures publishingStatus == Uniform("") && publishErrors == Uniform(None) && publishSuccessUrls == Uniform(None)
      ensures !complianceChecked && !isPublishing
      ensures platformStatuses == ConfigStatuses(envs)
      ensures details == initialDetails.GetOr(fetched.Outcome())
      ensures isLoading <==> initialDetails.None? && fetched.Rejected?
      ensures selectedPlatforms == old(selectedPlatforms) && price == old(price)
    {
      publishingStatus := Uniform("");
      publishErrors := Uniform(None);
      publishSuccessUrls := Uniform(None);
      complianceChecked := false;
      isPublishing := false;
      platformStatuses := ConfigStatuses(envs);
      FetchDetails(initialDetails, fetched);
    }

    /** `fetchDetails`: the given initial details win, otherwise the fetched
        ones (`fetched`, how the awaited call settled), otherwise empty
        details. A rejected call ends the function before loading is turned
        off, so the dialog keeps showing empty details while loading. */
    method FetchDetails(initialDetails: Option<ProductDetails>, fetched: Fetched)
      modifies this
      ensures initialDetails.Some? ==> details == initialDetails.value && !isLoading
      ensures initialDetails.None? && fetched.Answered? ==> details == fetched.answer.GetOr(EmptyDetails) && !isLoading
      ensures initialDetails.None? && fetched.Rejected? ==> details == EmptyDetails && isLoading
      ensures publishingStatus == old(publishingStatus) && publishErrors == old(publishErrors)
      ensures publishSuccessUrls == old(publishSuccessUrls) && complianceChecked == old(complianceChecked)
      ensures isPublishing == old(isPublishing) && platformStatuses == old(platformStatuses)
      ensures selectedPlatforms == old(selectedPlatforms) && price == old(price)
    {
      isLoading := true;
      if initialDetails.Some? {
        details := initialDetails.value;
      } else {
        details := EmptyDetails;
        match fetched
        case Rejected =>
          return;
        case Answered(answer) =>
          details := answer.GetOr(EmptyDetails);
      }
      isLoading := false;
    }

    /** `togglePlatform`. */
    method TogglePlatform(p: Platform)
      requires Valid()
      modifies this
      ensures Valid()
      ensures selectedPlatforms == Toggle(old(selectedPlatforms), p)
      ensures p in selectedPlatforms <==> p !in old(selectedPlatforms)
      ensures forall q :: q != p ==> (q in selectedPlatforms <==> q in old(selectedPlatforms))
      ensures publishingStatus == old(publishingStatus) && publishErrors == old(publishErrors)
      ensures publishSuccessUrls == old(publishSuccessUrls) && isPublishing == old(isPublishing)
      ensures complianceChecked == old(complianceChecked) && isLoading == old(isLoading)
      ensures platformStatuses == old(platformStatuses) && details == old(details) && price == old(price)
    {
      selectedPlatforms := Toggle(selectedPlatforms, p);
    }

    predicate CanPublishNow()
      reads this
    {
      CanPublish(complianceChecked, selectedPlatforms, isPublishing, isLoading, platformStatuses)
    }

    function FormattedHashtags(): string
      reads this
    {
      FormatHashtags(details.hashtags)
    }

    /** `handlePublish`. Nothing happens while a publication runs.
        Otherwise every error and link is cleared and the selected platforms
        are tried in insertion order (`attempted`); each ends with its link
        or its error, never both, a failure never stops the later ones, and
        the unselected platforms keep no error, no link and their status. */
    method HandlePublish(envs: Envs, step: Platform -> PublishOutcome) returns (attempted: seq<Platform>)
      requires Valid()
      modifies this
      ensures Valid()
      ensures old(isPublishing) ==> attempted == [] && unchanged(this)
      ensures !old(isPublishing) ==> attempted == old(selectedPlatforms) && !isPublishing
      ensures !old(isPublishing) ==> forall p :: p in selectedPlatforms ==>
        Settled(envs, step, p, publishingStatus, publishErrors, publishSuccessUrls)
        && (publishErrors.Get(p).Some? <==> publishSuccessUrls.Get(p).None?)
      ensures !old(isPublishing) ==> forall p :: p !in selectedPlatforms ==>
        Untouched(p, publishingStatus, publishErrors, publishSuccessUrls, old(publishingStatus))
      ensures selectedPlatforms == old(selectedPlatforms) && complianceChecked == old(complianceChecked)
      ensures isLoading == old(isLoading) && platformStatuses == old(platformStatuses)
      ensures details == old(details) && price == old(price)
    {
      if isPublishing {
        return [];
      }
      isPublishing := true;
      var status, errors, urls := publishingStatus, Uniform(None), Uniform(None);
      var platformsToPublish := selectedPlatforms;
      attempted := [];
      label Started:
      for i := 0 to |platformsToPublish|
        invariant unchanged@Started(this)
        invariant attempted == platformsToPublish[..i]
        invariant forall p :: p in attempted ==> Settled(envs, step, p, status, errors, urls)
        invariant forall p :: p !in attempted ==> Untouched(p, status, errors, urls, old(publishingStatus))
      {
        var p := platformsToPublish[i];
        assert p !in attempted by {
          forall j | 0 <= j < i ensures platformsToPublish[j] != p {}
        }
        SettleNext(envs, step, attempted, p, status, errors, urls, old(publishingStatus));
        var settled := Settle(envs, step, p, status, errors, urls);
        status, errors, urls := settled.0, settled.1, settled.2;
        attempted := attempted + [p];
        assert platformsToPublish[..i + 1] == attempted;
      }
      assert platformsToPublish[..|platformsToPublish|] == platformsToPublish;
      forall p | p in attempted ensures errors.Get(p).Some? <==> urls.Get(p).None? {
        SettledExclusive(envs, step, p, status, errors, urls);
      }
      publishingStatus, publishErrors, publishSuccessUrls := status, errors, urls;
      isPublishing := false;
    }

    /** `handleAdCopyChange`. */
    method HandleAdCopyChange(i: nat, v: string)
      requires i < |details.adCopy|
      modifies this
      ensures details == old(details).(adCopy := ReplaceAt(old(details.adCopy), i, v))
      ensures selectedPlatforms == old(selectedPlatforms) && publishingStatus == old(publishingStatus)
      ensures publishErrors == old(publishErrors) && publishSuccessUrls == old(publishSuccessUrls)
      ensures isPublishing == old(isPublishing) && complianceChecked == old(complianceChecked)
      ensures isLoading == old(isLoading) && platformStatuses == old(platformStatuses) && price == old(price)
    {
      details := details.(adCopy := ReplaceAt(details.adCopy, i, v));
    }

    /** `handleAddAdCopy`. */
    method HandleAddAdCopy()
      modifies this
      ensures details == old(details).(adCopy := AppendEmpty(old(details.adCopy)))
      ensures selectedPlatforms == old(selectedPlatforms) && publishingStatus == old(publishingStatus)
      ensures publishErrors == old(publishErrors) && publishSuccessUrls == old(publishSuccessUrls)
      ensures isPublishing == old(isPublishing) && complianceChecked == old(complianceChecked)
      ensures isLoading == old(isLoading) && platformStatuses == old(platformStatuses) && price == old(price)
    {
      details := details.(adCopy := AppendEmpty(details.adCopy));
    }

    /** `handleRemoveAdCopy`. */
    method HandleRemoveAdCopy(i: int)
      modifies this
      ensures details == old(details).(adCopy := RemoveAt(old(details.adCopy), i))
      ensures selectedPlatforms == old(selectedPlatforms) && publishingStatus == old(publishingStatus)
      ensures publishErrors == old(publishErrors) && publishSuccessUrls == old(publishSuccessUrls)
      ensures isPublishing == old(isPublishing) && complianceChecked == old(complianceChecked)
      ensures isLoading == old(isLoading) && platformStatuses == old(platformStatuses) && price == old(price)
    {
      details := details.(adCopy := RemoveAt(details.adCopy, i));
    }

    /** `handleHashtagsChange`. */
    method HandleHashtagsChange(text: string)
      modifies this
      ensures details == old(details).(hashtags := ParseHashtags(text))
      ensures selectedPlatforms == old(selectedPlatforms) && publishingStatus == old(publishingStatus)
      ensures publishErrors == old(publishErrors) && publishSuccessUrls == old(publishSuccessUrls)
      ensures isPublishing == old(isPublishing) && complianceChecked == old(complianceChecked)
      ensures isLoading == old(isLoading) && platformStatuses == old(platformStatuses) && price == old(price)
    {
      details := details.(hashtags := ParseHashtags(text));
    }
  }
}
