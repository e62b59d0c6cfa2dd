/** The prompt panel: the built-in product presets, the selection toggle,
    the rule that fills the prompt from a single preset, the gate on the
    generate button, the submit dispatch and the button's label. */
module ControlPanel {
  import opened Strings

  /** `edit` works on an uploaded image; `generate` starts from text. */
  datatype AppMode = Edit | Generate

  datatype MerchPreset = MerchPreset(id: string, name: string, template: string)

  /** `MERCH_PRESETS`, column by column: the ids, the names shown on the
      buttons, and the prompt templates, row `i` of each belonging to the
      same preset. */
  const PresetIds: seq<string> := [
    "t-shirt", "mug", "poster", "hoodie", "stickers", "phone-case", "hat", "notebook", "tote-bag", "coloring-book"]
  const PresetNames: seq<string> := [
    "T-Shirt", "Mug", "Poster", "Hoodie", "Stickers", "Phone Case", "Hat", "Notebook", "Tote Bag", "Adult Coloring Book"]
  const PresetTemplates: seq<string> := [
    "Create a photorealistic mockup of this design on the chest of a premium, soft cotton white t-shirt. The t-shirt should be laid flat on a clean, light gray surface with subtle, natural shadows.",
    "Render this design on a glossy white ceramic coffee mug. The mockup should be photorealistic, placed on a dark wooden coffee shop table next to a window with soft, morning light creating gentle reflections.",
    "Generate a photorealistic mockup of this design as a high-resolution poster inside a thin, matte black frame. The poster should be hanging on a lightly textured, off-white wall in a modern, minimalist apartment setting. The lighting should be soft and indirect, coming from a large window just out of frame. Include a softly blurred background with a hint of a vibrant green potted plant on a wooden floor, adding a touch of life to the scene.",
    "Display this design on the front of a comfortable, slightly wrinkled black pullover hoodie. The mockup should show realistic fabric texture and be laid flat on a neutral, concrete-textured background.",
    "Create a mockup of multiple die-cut vinyl stickers of this design. The stickers should have a clean white border and a glossy finish, scattered realistically on a simple, pastel-colored background.",
    "Generate a mockup of this design on a sleek, matte black smartphone case (similar to an iPhone). The phone should be resting at a slight angle on a clean, minimalist desk surface next to a pair of wireless earbuds.",
    "Create a photorealistic mockup of this design embroidered on the front of a classic black baseball cap. The cap should be shown from a slight front-angle view on a clean, neutral background to emphasize the design.",
    "Generate a mockup of this design on the cover of a spiral-bound notebook. The notebook should be lying on a wooden desk next to a pen, with soft, natural lighting.",
    "Create a photorealistic mockup of this design on a simple, minimalist canvas tote bag. The bag should be held by a person against a clean, light-colored wall, showcasing the design in a natural, lifestyle context.",
    "Convert this image into a detailed, black-and-white line art page for an adult coloring book. The final image should be presented as a crisp page in an open coloring book, with colored pencils resting nearby."]

  /** The presets assembled from the three columns. */
  const MerchPresets: seq<MerchPreset> := Catalog(PresetTemplates)

  /** Row `i` of the catalogue: id and name from their columns, and the
      template of the same row (empty if the template column is short). */
  function Catalog(templates: seq<string>): (r: seq<MerchPreset>)
    ensures |r| == |PresetIds| == 10
    ensures forall i :: 0 <= i < |r| ==> r[i].id == PresetIds[i] && r[i].name == PresetNames[i]
    ensures forall i :: 0 <= i < |r| && i < |templates| ==> r[i].template == templates[i]
  {
    seq(|PresetIds|, i requires 0 <= i < |PresetIds| =>
      MerchPreset(PresetIds[i], PresetNames[i], if i < |templates| then templates[i] else ""))
  }

  const VariationsOptions: seq<int> := [1, 2, 3, 4]
  const AspectRatioOptions: seq<string> := ["1:1", "16:9", "9:16", "4:3", "3:4"]

  /** No two presets of a selection share an id. */
  predicate UniqueIds(sel: seq<MerchPreset>) {
    forall i, j :: 0 <= i < j < |sel| ==> sel[i].id != sel[j].id
  }

  /** The built-in presets are ten with pairwise different ids, whatever
      their templates; there are four variation counts and five aspect
      ratios, all different. */
  lemma PresetConstants(templates: seq<string>)
    ensures |Catalog(templates)| == 10 && UniqueIds(Catalog(templates))
    ensures VariationsOptions == [1, 2, 3, 4]
    ensures |AspectRatioOptions| == 5
    ensures forall i, j :: 0 <= i < j < |AspectRatioOptions| ==> AspectRatioOptions[i] != AspectRatioOptions[j]
  {
    PresetIdsDistinct();
    AspectRatiosDistinct();
  }

  lemma PresetIdsDistinct()
    ensures forall i, j :: 0 <= i < j < |PresetIds| ==> PresetIds[i] != PresetIds[j]
  {
    var ids := PresetIds;
    assert |ids[0]| == 7 && |ids[1]| == 3 && |ids[2]| == 6 && |ids[3]| == 6 && |ids[4]| == 8;
    assert |ids[5]| == 10 && |ids[6]| == 3 && |ids[7]| == 8 && |ids[8]| == 8 && |ids[9]| == 13;
    assert ids[1][0] != ids[6][0] && ids[2][0] != ids[3][0];
    assert ids[4][0] != ids[7][0] && ids[4][0] != ids[8][0] && ids[7][0] != ids[8][0];
  }

  lemma AspectRatiosDistinct()
    ensures |AspectRatioOptions| == 5
    ensures forall i, j :: 0 <= i < j < |AspectRatioOptions| ==> AspectRatioOptions[i] != AspectRatioOptions[j]
  {
    var r := AspectRatioOptions;
    assert |r[0]| == 3 && |r[1]| == 4 && |r[2]| == 4 && |r[3]| == 3 && |r[4]| == 3;
    assert r[1][0] != r[2][0] && r[0][0] != r[3][0] && r[0][0] != r[4][0] && r[3][0] != r[4][0];
  }

  /** `canSubmit`. */
  predicate CanSubmit(mode: AppMode, isImageUploaded: bool, selectedPresets: seq<MerchPreset>, prompt: string,
                      isLoading: bool) {
    match mode
    case Edit => isImageUploaded && (|selectedPresets| > 0 || !IsBlank(prompt)) && !isLoading
    case Generate => !IsBlank(prompt) && !isLoading
  }

  /** The gate spelled out: edit mode needs an uploaded image and either a
      preset or a non-blank prompt, generate mode a non-blank prompt, and
      neither submits while loading; whenever the gate is open the submit
      handler starts the generator of the mode. */
  lemma CanSubmitRules(mode: AppMode, isImageUploaded: bool, sel: seq<MerchPreset>, prompt: string, isLoading: bool)
    ensures mode == Edit ==>
      (CanSubmit(mode, isImageUploaded, sel, prompt, isLoading) <==> isImageUploaded && (sel != [] || !IsBlank(prompt)) && !isLoading)
    ensures mode == Generate ==>
      (CanSubmit(mode, isImageUploaded, sel, prompt, isLoading) <==> !IsBlank(prompt) && !isLoading)
    ensures CanSubmit(mode, isImageUploaded, sel, prompt, isLoading) ==> HandleSubmit(mode, isLoading) != NoAction
  {
  }

  /** `selectedPresets.some(p => p.id === id)`. */
  predicate HasId(sel: seq<MerchPreset>, id: string) {
    exists i :: 0 <= i < |sel| && sel[i].id == id
  }

  /** `selectedPresets.filter(p => p.id !== id)`. */
  function WithoutId(sel: seq<MerchPreset>, id: string): (r: seq<MerchPreset>)
    ensures !HasId(r, id)
    ensures forall other :: other != id ==> (HasId(r, other) <==> HasId(sel, other))
    ensures UniqueIds(sel) ==> UniqueIds(r)
    ensures |r| <= |sel|
  {
    if |sel| == 0 then []
    else
      var rest := WithoutId(sel[1..], id);
      HasIdTail(sel);
      if sel[0].id == id then rest
      else
        assert UniqueIds(sel) ==> UniqueIds(sel[1..]) && !HasId(sel[1..], sel[0].id);
        ConsIds(sel[0], rest);
        [sel[0]] + rest
  }

  lemma ConsIds(x: MerchPreset, rest: seq<MerchPreset>)
    ensures forall id :: HasId([x] + rest, id) <==> x.id == id || HasId(rest, id)
    ensures UniqueIds(rest) && !HasId(rest, x.id) ==> UniqueIds([x] + rest)
  {
    var r := [x] + rest;
    assert r[1..] == rest;
    HasIdTail(r);
    if UniqueIds(rest) && !HasId(rest, x.id) {
      forall i, j | 0 <= i < j < |r| ensures r[i].id != r[j].id {
        if i == 0 {
          assert rest[j - 1].id == r[j].id;
        } else {
          assert r[i] == rest[i - 1] && r[j] == rest[j - 1];
        }
      }
    }
  }

  lemma HasIdTail(sel: seq<MerchPreset>)
    requires |sel| > 0
    ensures forall id :: HasId(sel, id) <==> sel[0].id == id || HasId(sel[1..], id)
  {
    forall id ensures HasId(sel, id) <==> sel[0].id == id || HasId(sel[1..], id) {
      if HasId(sel, id) && sel[0].id != id {
        var k :| 0 <= k < |sel| && sel[k].id == id;
        assert sel[1..][k - 1].id == id;
      }
      if HasId(sel[1..], id) {
        var k :| 0 <= k < |sel[1..]| && sel[1..][k].id == id;
        assert sel[k + 1].id == id;
      }
    }
  }

  /** `handlePresetClick`: a selected preset leaves the selection, an
      unselected one joins it at the end; no other id changes membership
      and no id is ever selected twice. */
  function HandlePresetClick(sel: seq<MerchPreset>, preset: MerchPreset): (r: seq<MerchPreset>)
    ensures HasId(r, preset.id) <==> !HasId(sel, preset.id)
    ensures forall other :: other != preset.id ==> (HasId(r, other) <==> HasId(sel, other))
    ensures !HasId(sel, preset.id) ==> r == sel + [preset]
    ensures UniqueIds(sel) ==> UniqueIds(r)
  {
    if HasId(sel, preset.id) then WithoutId(sel, preset.id)
    else
      var r := sel + [preset];
      assert r[|sel|].id == preset.id;
      forall other | other != preset.id ensures HasId(r, other) <==> HasId(sel, other) {
        if HasId(r, other) {
          var k :| 0 <= k < |r| && r[k].id == other;
          assert k < |sel| && sel[k].id == other;
        }
        if HasId(sel, other) {
          var k :| 0 <= k < |sel| && sel[k].id == other;
          assert r[k].id == other;
        }
      }
      r
  }

  /** Deselecting the preset at position `k` of a selection without
      repeated ids removes exactly that entry; the others keep their order. */
  lemma {:induction false} DeselectKeepsOrder(sel: seq<MerchPreset>, k: nat)
    requires UniqueIds(sel) && k < |sel|
    ensures HandlePresetClick(sel, sel[k]) == sel[..k] + sel[k + 1..]
  {
    assert HasId(sel, sel[k].id);
    WithoutIdAt(sel, k);
  }

  lemma {:induction false} WithoutIdAt(sel: seq<MerchPreset>, k: nat)
    requires UniqueIds(sel) && k < |sel|
    ensures WithoutId(sel, sel[k].id) == sel[..k] + sel[k + 1..]
  {
    HasIdTail(sel);
    if k == 0 {
      WithoutIdAbsent(sel[1..], sel[0].id);
    } else {
      assert sel[0].id != sel[k].id;
      assert sel[1..][k - 1] == sel[k];
      WithoutIdAt(sel[1..], k - 1);
      assert sel[1..][..k - 1] + sel[1..][k..] == sel[1..k] + sel[k + 1..];
      assert sel[..k] + sel[k + 1..] == [sel[0]] + (sel[1..k] + sel[k + 1..]);
    }
  }

  lemma {:induction false} WithoutIdAbsent(sel: seq<MerchPreset>, id: string)
    requires !HasId(sel, id)
    ensures WithoutId(sel, id) == sel
  {
    if |sel| > 0 {
      HasIdTail(sel);
      WithoutIdAbsent(sel[1..], id);
    }
  }

  /** A preset clicked on and off again leaves the selection as it was. */
  lemma {:induction false} ClickTwice(sel: seq<MerchPreset>, preset: MerchPreset)
    requires !HasId(sel, preset.id)
    ensures HandlePresetClick(HandlePresetClick(sel, preset), preset) == sel
  {
    var r := sel + [preset];
    assert r[|sel|].id == preset.id;
    WithoutIdAppended(sel, preset);
  }

  lemma {:induction false} WithoutIdAppended(sel: seq<MerchPreset>, preset: MerchPreset)
    requires !HasId(sel, preset.id)
    ensures WithoutId(sel + [preset], preset.id) == sel
  {
    if |sel| == 0 {
      assert [preset][1..] == [];
    } else {
      assert sel[0].id != preset.id;
      HasIdTail(sel);
      assert (sel + [preset])[1..] == sel[1..] + [preset];
      WithoutIdAppended(sel[1..], preset);
    }
  }

  /** The prompt after the preset effect runs: in edit mode a single
      selected preset supplies its template and any other count clears the
      prompt; generate mode leaves it alone. */
  function PromptEffect(mode: AppMode, sel: seq<MerchPreset>, prompt: string): (r: string)
    ensures mode == Generate ==> r == prompt
    ensures mode == Edit && |sel| == 1 ==> r == sel[0].template
    ensures mode == Edit && |sel| != 1 ==> r == ""
  {
    match mode
    case Edit => if |sel| == 1 then sel[0].template else ""
    case Generate => prompt
  }

  /** In edit mode, with an image uploaded and nothing loading, picking one
      preset on an empty selection fills the prompt with its template and
      enables the button; picking it again empties both the selection and
      the prompt, which disables the button. */
  lemma SinglePresetFlow(p: MerchPreset, prompt: string)
    ensures var s1 := HandlePresetClick([], p);
      && s1 == [p]
      && PromptEffect(Edit, s1, prompt) == p.template
      && CanSubmit(Edit, true, s1, PromptEffect(Edit, s1, prompt), false)
    ensures var s2 := HandlePresetClick(HandlePresetClick([], p), p);
      && s2 == []
      && PromptEffect(Edit, s2, prompt) == ""
      && !CanSubmit(Edit, true, s2, PromptEffect(Edit, s2, prompt), false)
  {
    var s1 := HandlePresetClick([], p);
    assert !HasId([], p.id);
    assert s1 == [p];
    ClickTwice([], p);
    var s2 := HandlePresetClick(s1, p);
    assert s2 == [];
    assert PromptEffect(Edit, s2, prompt) == "";
    assert IsBlank("");
  }

  /** What the generate button does. */
  datatype SubmitAction = NoAction | GenerateEdit | GenerateNew

  /** `handleSubmit`: nothing while loading, otherwise the mode's generator. */
  function HandleSubmit(mode: AppMode, isLoading: bool): (a: SubmitAction)
    ensures isLoading <==> a == NoAction
    ensures !isLoading ==> (a == GenerateEdit <==> mode == Edit)
  {
    if isLoading then NoAction
    else match mode
      case Edit => GenerateEdit
      case Generate => GenerateNew
  }

  /** `getGenerateButtonText`. */
  function GenerateButtonText(mode: AppMode, variations: int, selectedCount: nat): string {
    match mode
    case Generate => if variations > 1 then "Generate " + IntToString(variations) + " Variations" else "Generate Image"
    case Edit => if selectedCount > 1 then "Generate " + IntToString(selectedCount) + " Mockups" else "Generate"
  }

  /** The label names the number of images asked for when it is more than
      one, so different counts get different labels; a single image gets
      the plain label of its mode. */
  lemma ButtonTextCounts(mode: AppMode, m: int, n: int, a: nat, b: nat)
    ensures mode == Generate && m > 1 && n > 1 && m != n ==> GenerateButtonText(mode, m, a) != GenerateButtonText(mode, n, b)
    ensures mode == Edit && a > 1 && b > 1 && a != b ==> GenerateButtonText(mode, m, a) != GenerateButtonText(mode, n, b)
    ensures mode == Generate && m <= 1 ==> GenerateButtonText(mode, m, a) == "Generate Image"
    ensures mode == Edit && a <= 1 ==> GenerateButtonText(mode, m, a) == "Generate"
  {
    if mode == Generate && m > 1 && n > 1 && m != n {
      CountedLabelsDiffer("Generate ", m, n, " Variations");
    }
    if mode == Edit && a > 1 && b > 1 && a != b {
      CountedLabelsDiffer("Generate ", a, b, " Mockups");
    }
  }

  lemma CountedLabelsDiffer(head: string, m: int, n: int, tail: string)
    requires m != n
    ensures head + IntToString(m) + tail != head + IntToString(n) + tail
  {
    var x, y := IntToString(m), IntToString(n);
    if head + x + tail == head + y + tail {
      assert |x| == |y|;
      assert x == (head + x + tail)[|head|..|head| + |x|];
      assert y == (head + y + tail)[|head|..|head| + |y|];
      IntToStringInjective(m, n);
    }
  }
}
