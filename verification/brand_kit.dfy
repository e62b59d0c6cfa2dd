/** The brand kit: an optional logo (a data URL) and a short list of
    upper-case colour codes, edited by the brand-kit panel. */
module BrandKit {
  import opened Wrappers
  import opened Strings

  datatype BrandKit = BrandKit(logo: Option<string>, colors: seq<string>)

  /** The most colours the panel accepts. */
  const MaxColors: nat := 8

  /** What the panel keeps true of every kit it edits: at most eight
      colours, none empty, none listed twice. */
  predicate WellFormed(kit: BrandKit) {
    && |kit.colors| <= MaxColors
    && (forall i :: 0 <= i < |kit.colors| ==> kit.colors[i] != [])
    && Distinct(kit.colors)
  }

  predicate Distinct(colors: seq<string>) {
    forall i, j :: 0 <= i < j < |colors| ==> colors[i] != colors[j]
  }

  /** `handleAddColor`: the colour, upper-cased, joins the end of the list
      when it is non-empty, not yet listed and the list is not full;
      otherwise the kit is unchanged. The logo is never touched. */
  function AddColor(kit: BrandKit, newColor: string): (r: BrandKit)
    ensures r.logo == kit.logo
    ensures var c := ToUpper(newColor);
      if c != [] && c !in kit.colors && |kit.colors| < MaxColors then r.colors == kit.colors + [c]
      else r == kit
    ensures WellFormed(kit) ==> WellFormed(r)
  {
    var c := ToUpper(newColor);
    if c != [] && c !in kit.colors && |kit.colors| < MaxColors then kit.(colors := kit.colors + [c])
    else kit
  }

  /** Adding the same colour twice adds it once. */
  lemma AddColorIdempotent(kit: BrandKit, newColor: string)
    ensures AddColor(AddColor(kit, newColor), newColor) == AddColor(kit, newColor)
  {
    var c := ToUpper(newColor);
    var r := AddColor(kit, newColor);
    if r != kit {
      assert r.colors[|kit.colors|] == c;
    }
  }

  /** `colors.filter(c => c !== color)`. */
  function Without(colors: seq<string>, color: string): (r: seq<string>)
    ensures color !in r
    ensures forall c :: c != color ==> (c in r <==> c in colors)
    ensures |r| <= |colors|
  {
    if |colors| == 0 then []
    else if colors[0] == color then Without(colors[1..], color)
    else [colors[0]] + Without(colors[1..], color)
  }

  lemma {:induction false} WithoutKeepsDistinct(colors: seq<string>, color: string)
    requires Distinct(colors)
    ensures Distinct(Without(colors, color))
  {
    if |colors| > 0 {
      WithoutKeepsDistinct(colors[1..], color);
      var rest := Without(colors[1..], color);
      if colors[0] != color {
        assert colors[0] !in colors[1..];
        assert colors[0] !in rest;
        var r := [colors[0]] + rest;
        forall i, j | 0 <= i < j < |r| ensures r[i] != r[j] {
          if i == 0 {
            assert r[j] == rest[j - 1] && r[j] in rest;
          } else {
            assert r[i] == rest[i - 1] && r[j] == rest[j - 1];
          }
        }
        assert Without(colors, color) == r;
      }
    }
  }

  /** `handleRemoveColor`: the colour leaves the list, every other colour
      stays in its place, and the logo is not touched. */
  function RemoveColor(kit: BrandKit, color: string): (r: BrandKit)
    ensures r.logo == kit.logo
    ensures color !in r.colors
    ensures forall c :: c != color ==> (c in r.colors <==> c in kit.colors)
    ensures WellFormed(kit) ==> WellFormed(r)
  {
    if WellFormed(kit) then
      WithoutWellFormed(kit, color);
      kit.(colors := Without(kit.colors, color))
    else kit.(colors := Without(kit.colors, color))
  }

  /** Filtering keeps order: filtering a concatenation filters each part
      and concatenates the results. */
  lemma {:induction false} WithoutConcat(a: seq<string>, b: seq<string>, color: string)
    ensures Without(a + b, color) == Without(a, color) + Without(b, color)
  {
    if |a| > 0 {
      assert (a + b)[1..] == a[1..] + b;
      WithoutConcat(a[1..], b, color);
    } else {
      assert a + b == b;
    }
  }

  /** Removing a colour listed once, between colours that differ from it,
      joins what came before it to what came after it. */
  lemma WithoutSplice(pre: seq<string>, c: string, post: seq<string>)
    requires c !in pre && c !in post
    ensures Without(pre + [c] + post, c) == pre + post
  {
    var one: seq<string> := [c];
    assert one[1..] == [];
    assert Without(one, c) == Without(one[1..], c);
    WithoutConcat(pre, one, c);
    WithoutConcat(pre + one, post, c);
    WithoutAbsent(pre, c);
    WithoutAbsent(post, c);
    assert Without(pre + one, c) == pre;
  }

  /** A colour of a list without repeats occurs neither before nor after
      its own position. */
  lemma DistinctAround(colors: seq<string>, k: nat)
    requires Distinct(colors) && k < |colors|
    ensures colors[k] !in colors[..k] && colors[k] !in colors[k+1..]
  {
    var pre, post := colors[..k], colors[k+1..];
    forall i | 0 <= i < |pre| ensures pre[i] != colors[k] {
      assert pre[i] == colors[i];
    }
    forall i | 0 <= i < |post| ensures post[i] != colors[k] {
      assert post[i] == colors[k + 1 + i];
    }
  }

  /** In a list without repeats, removing the colour at position `k` leaves
      the colours before it and the colours after it, in their order. */
  lemma WithoutAt(colors: seq<string>, k: nat)
    requires Distinct(colors) && k < |colors|
    ensures Without(colors, colors[k]) == colors[..k] + colors[k+1..]
  {
    DistinctAround(colors, k);
    assert colors == colors[..k] + [colors[k]] + colors[k+1..];
    WithoutSplice(colors[..k], colors[k], colors[k+1..]);
  }

  /** `handleRemoveColor` on a well-formed kit: the colour at position `k`
      is dropped and the others keep their order. */
  lemma RemoveColorAt(kit: BrandKit, k: nat)
    requires WellFormed(kit) && k < |kit.colors|
    ensures RemoveColor(kit, kit.colors[k]).colors == kit.colors[..k] + kit.colors[k+1..]
  {
    WithoutAt(kit.colors, k);
  }

  lemma WithoutWellFormed(kit: BrandKit, color: string)
    requires WellFormed(kit)
    ensures WellFormed(kit.(colors := Without(kit.colors, color)))
  {
    var r := Without(kit.colors, color);
    forall i | 0 <= i < |r| ensures r[i] != [] {
      assert r[i] in r;
    }
    WithoutKeepsDistinct(kit.colors, color);
  }

  lemma {:induction false} WithoutAbsent(colors: seq<string>, color: string)
    requires color !in colors
    ensures Without(colors, color) == colors
  {
    if |colors| > 0 {
      WithoutAbsent(colors[1..], color);
    }
  }

  lemma {:induction false} WithoutAppended(colors: seq<string>, color: string)
    requires color !in colors
    ensures Without(colors + [color], color) == colors
  {
    if |colors| == 0 {
      assert ([] + [color])[1..] == [];
    } else {
      assert (colors + [color])[1..] == colors[1..] + [color];
      WithoutAppended(colors[1..], color);
    }
  }

  /** Removing a colour that was just added gives back the kit as it was. */
  lemma AddThenRemove(kit: BrandKit, newColor: string)
    requires AddColor(kit, newColor) != kit
    ensures RemoveColor(AddColor(kit, newColor), ToUpper(newColor)) == kit
  {
    WithoutAppended(kit.colors, ToUpper(newColor));
  }

  /** Removing a colour that is not listed changes nothing. */
  lemma RemoveAbsentColor(kit: BrandKit, color: string)
    requires color !in kit.colors
    ensures RemoveColor(kit, color) == kit
  {
    WithoutAbsent(kit.colors, color);
  }

  /** The outcome of reading the file picked for the logo. */
  datatype LogoFile = NoFile | ReadFailed | ReadOk(dataUrl: string)

  /** `handleLogoUpload`: a file that was read becomes the logo; no file or
      a failed read leaves the kit as it was. The colours are never touched. */
  function HandleLogoUpload(kit: BrandKit, file: LogoFile): (r: BrandKit)
    ensures r.colors == kit.colors
    ensures file.ReadOk? ==> r.logo == Some(file.dataUrl)
    ensures !file.ReadOk? ==> r == kit
  {
    match file
    case ReadOk(url) => kit.(logo := Some(url))
    case _ => kit
  }

  /** `handleRemoveLogo`: the logo is cleared, the colours are kept. */
  function RemoveLogo(kit: BrandKit): (r: BrandKit)
    ensures r.logo == None && r.colors == kit.colors
  {
    kit.(logo := None)
  }

  /** Uploading a logo and removing it again gives back a kit without a
      logo and with the colours it had; the upload keeps the kit well formed. */
  lemma LogoRoundTrip(kit: BrandKit, url: string)
    ensures RemoveLogo(HandleLogoUpload(kit, ReadOk(url))) == RemoveLogo(kit)
    ensures WellFormed(kit) ==> WellFormed(HandleLogoUpload(kit, ReadOk(url)))
  {
  }
}
