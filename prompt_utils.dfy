/**
 * The fixed term lists of the prompt utilities, and the fact that the
 * maximum-quality terms are in lower case, which makes appending them
 * idempotent.
 */
module PromptTerms {
  /** A string with no upper-case ASCII letter. */
  predicate NoUpper(t: string)
  {
    forall i :: 0 <= i < |t| ==> !('A' <= t[i] <= 'Z')
  }

  /** The terms an over-long prompt keeps when it mentions them. */
  const KEY_TERMS: seq<string> :=
    ["security", "lifestyle", "professional", "high-quality", "realistic", "stainless steel", "mesh", "screen",
     "window"]

  const MAJOR_TERMS: seq<string> :=
    ["ultra-high resolution", "professional architectural photography", "exceptional detail and clarity",
     "photorealistic quality", "perfect lighting and shadows"]

  const MODERATE_TERMS: seq<string> :=
    ["high-resolution detail", "crisp edges and textures", "enhanced contrast", "improved lighting effects"]

  const MINOR_TERMS: seq<string> := ["refined details", "improved lighting", "enhanced clarity"]

  /** The maximum-quality terms, in the order they are appended. */
  const QUALITY_TERMS: seq<string> :=
    ["ultra-high resolution", "professional architectural photography", "exceptional detail and clarity",
     "photorealistic quality", "perfect lighting and shadows", "crisp edges and textures",
     "premium visualization standards", "maximum quality optimization"]

  lemma NoUpperQuality0()
    ensures NoUpper(QUALITY_TERMS[0])
  {
  }

  lemma NoUpperQuality1()
    ensures NoUpper(QUALITY_TERMS[1])
  {
  }

  lemma NoUpperQuality2()
    ensures NoUpper(QUALITY_TERMS[2])
  {
  }

  lemma NoUpperQuality3()
    ensures NoUpper(QUALITY_TERMS[3])
  {
  }

  lemma NoUpperQuality4()
    ensures NoUpper(QUALITY_TERMS[4])
  {
  }

  lemma NoUpperQuality5()
    ensures NoUpper(QUALITY_TERMS[5])
  {
  }

  lemma NoUpperQuality6()
    ensures NoUpper(QUALITY_TERMS[6])
  {
  }

  lemma NoUpperQuality7()
    ensures NoUpper(QUALITY_TERMS[7])
  {
  }

  /** No maximum-quality term has an upper-case letter. */
  lemma QualityTermsNoUpper()
    ensures forall i :: 0 <= i < |QUALITY_TERMS| ==> NoUpper(QUALITY_TERMS[i])
  {
    NoUpperQuality0();
    NoUpperQuality1();
    NoUpperQuality2();
    NoUpperQuality3();
    NoUpperQuality4();
    NoUpperQuality5();
    NoUpperQuality6();
    NoUpperQuality7();
  }

  const QUALITY_ENHANCEMENTS: seq<string> :=
    ["professional architectural visualization", "photorealistic rendering quality",
     "exceptional detail and clarity", "perfect lighting and shadows", "accurate material representation",
     "precise perspective and depth", "high-end visualization standards"]

  const TECHNICAL_SPECS: seq<string> :=
    ["ultra-high resolution detail", "crisp edges and textures", "natural lighting effects",
     "realistic material properties", "accurate color representation"]

  /** The fixed quality requirements that end a reference-enhanced prompt. */
  const QUALITY_TAIL := ", ultra-high resolution detail, photorealistic quality, professional architectural photography"

}

/**
 * The text operations the prompt utilities build on: splitting on
 * whitespace, joining, and the shape of a reference-enhanced prompt.
 */
module PromptText {
  import opened Common
  import Executor

  // ---------------------------------------------------------------------
  // Words
  // ---------------------------------------------------------------------

  /** The characters `str.split()` treats as separators (the ASCII ones). */
  predicate IsSpace(c: char)
  {
    c == ' ' || c == '\t' || c == '\n' || c == '\r' || c == '\U{B}' || c == '\U{C}' ||
    c == '\U{1C}' || c == '\U{1D}' || c == '\U{1E}' || c == '\U{1F}'
  }

  /** A word: non-empty, without separators. */
  predicate IsWord(w: string)
  {
    w != [] && forall i :: 0 <= i < |w| ==> !IsSpace(w[i])
  }

  /** The words of `s`, given the word `cur` read so far. */
  function SplitFrom(s: string, cur: string): (ws: seq<string>)
    requires cur == [] || IsWord(cur)
    ensures forall i :: 0 <= i < |ws| ==> IsWord(ws[i])
    decreases |s|
  {
    if s == [] then (if cur == [] then [] else [cur])
    else if IsSpace(s[0]) then (if cur == [] then [] else [cur]) + SplitFrom(s[1..], [])
    else SplitFrom(s[1..], cur + [s[0]])
  }

  /** `s.split()`: the maximal runs of non-separator characters. */
  function Words(s: string): (ws: seq<string>)
    ensures forall i :: 0 <= i < |ws| ==> IsWord(ws[i])
  {
    SplitFrom(s, [])
  }

  /** `sep.join(ws)`. */
  function Join(ws: seq<string>, sep: string): string
  {
    if ws == [] then "" else if |ws| == 1 then ws[0] else ws[0] + sep + Join(ws[1..], sep)
  }

  function Min(a: int, b: int): int
  {
    if a <= b then a else b
  }

  /** The included specifications, each after ", "; nothing when there are none. */
  function SpecsText(specs: seq<string>): string
  {
    if specs == [] then "" else ", " + Join(specs, ", ")
  }

  /**
   * The enhanced prompt once references exist: the base, the included
   * specifications and the closing; it starts with the base followed by the
   * first specification, or by the closing when there is none, and ends
   * with the closing.
   */
  function WithSpecs(base: string, specs: seq<string>, closing: string): (r: string)
    ensures StartsWith(r, base)
    ensures specs == [] ==> r == base + closing
    ensures specs != [] ==> StartsWith(r, base + ", " + specs[0])
    ensures |r| >= |closing| && r[|r| - |closing|..] == closing
  {
    PrefixOfThree(base, SpecsText(specs), closing);
    SuffixOfThree(base, SpecsText(specs), closing);
    if specs != [] then
      FirstSpecFollowsBase(base, specs, closing);
      base + SpecsText(specs) + closing
    else
      base + SpecsText(specs) + closing
  }

  /** The first included specification follows the base and ", ". */
  lemma FirstSpecFollowsBase(base: string, specs: seq<string>, closing: string)
    requires specs != []
    ensures StartsWith(base + SpecsText(specs) + closing, base + ", " + specs[0])
  {
    var rest := if |specs| == 1 then "" else ", " + Join(specs[1..], ", ");
    assert Join(specs, ", ") == specs[0] + rest;
    Executor.PrefixOfConcat(specs[0], rest);
    PrefixPrepend(", ", specs[0] + rest, specs[0]);
    PrefixPrepend(base, SpecsText(specs), ", " + specs[0]);
    assert base + (", " + specs[0]) == base + ", " + specs[0];
    PrefixExtend(base + SpecsText(specs), base + ", " + specs[0], closing);
  }

  /** A prefix of a string is a prefix of any extension of it. */
  lemma PrefixExtend(t: string, q: string, c: string)
    requires StartsWith(t, q)
    ensures StartsWith(t + c, q)
  {
    assert (t + c)[..|q|] == t[..|q|];
  }

  /** Putting the same text in front of a string and of its prefix keeps it a prefix. */
  lemma PrefixPrepend(p: string, t: string, q: string)
    requires StartsWith(t, q)
    ensures StartsWith(p + t, p + q)
  {
    assert (p + t)[..|p + q|] == p + t[..|q|];
  }

  /** The last of three concatenated parts ends the string. */
  lemma SuffixOfThree(a: string, b: string, c: string)
    ensures var r := a + b + c; r[|r| - |c|..] == c
  {
    var r := a + b + c;
    assert r[|r| - |c|..] == c;
  }

  /** A string starts with the first of three concatenated parts. */
  lemma PrefixOfThree(a: string, b: string, c: string)
    ensures StartsWith(a + b + c, a)
  {
    assert (a + b + c)[..|a|] == a;
  }

}

/**
 * The prompt utilities of the AI services: shortening an over-long prompt
 * while keeping key terms, the enhancers that append each quality term the
 * prompt does not mention yet, the reference-enhanced prompt, and the
 * material specifications per screen type. The prompt text is treated as
 * plain ASCII.
 */
module PromptUtils {
  import opened Common
  import Executor
  import opened PromptTerms
  import opened PromptText

  // ---------------------------------------------------------------------
  // optimize_prompt_for_api
  // ---------------------------------------------------------------------

  /**
   * The key-term pass over `terms`: a term is appended, after a space, when
   * the result so far does not mention it, the original prompt does, and
   * it still fits within `maxLength`.
   */
  function AddKeyTerms(opt: string, promptLower: string, maxLength: nat, terms: seq<string>): (r: string)
    ensures StartsWith(r, opt)
    ensures |opt| <= maxLength ==> |r| <= maxLength
    ensures (forall i :: 0 <= i < |terms| ==> !Contains(promptLower, terms[i])) ==> r == opt
    decreases |terms|
  {
    if terms == [] then opt
    else
      var t := terms[0];
      var next := if !Contains(Lower(opt), t) && Contains(promptLower, t) && |opt| + |t| + 1 <= maxLength
                  then opt + " " + t else opt;
      assert next[..|opt|] == opt;
      var r := AddKeyTerms(next, promptLower, maxLength, terms[1..]);
      assert r[..|next|][..|opt|] == r[..|opt|];
      r
  }

  /** The first words of the prompt an over-long prompt keeps: `max_length // 6` of them. */
  function KeptWords(prompt: string, maxLength: nat): (ws: seq<string>)
    ensures |ws| <= maxLength / 6 && |ws| <= |Words(prompt)|
    ensures ws == Words(prompt)[..|ws|]
  {
    Words(prompt)[..Min(maxLength / 6, |Words(prompt)|)]
  }

  /**
   * `optimize_prompt_for_api`, specified: a prompt within the limit is kept
   * as it is; a longer one becomes its first words joined by single spaces,
   * followed by the key terms it lost, as room allows.
   */
  function OptimizedPrompt(prompt: string, maxLength: nat): (r: string)
    ensures |prompt| <= maxLength ==> r == prompt
    ensures |prompt| > maxLength ==> StartsWith(r, Join(KeptWords(prompt, maxLength), " "))
    ensures |prompt| > maxLength && |Join(KeptWords(prompt, maxLength), " ")| <= maxLength ==> |r| <= maxLength
  {
    if |prompt| <= maxLength then prompt
    else AddKeyTerms(Join(KeptWords(prompt, maxLength), " "), Lower(prompt), maxLength, KEY_TERMS)
  }

  /** The key-term loop of `optimize_prompt_for_api`, as it runs. */
  method AddKeyTermsLoop(opt: string, promptLower: string, maxLength: nat, terms: seq<string>) returns (r: string)
    ensures r == AddKeyTerms(opt, promptLower, maxLength, terms)
  {
    r := opt;
    var k := 0;
    while k < |terms|
      invariant 0 <= k <= |terms|
      invariant AddKeyTerms(r, promptLower, maxLength, terms[k..]) == AddKeyTerms(opt, promptLower, maxLength, terms)
    {
      var term := terms[k];
      assert terms[k..][1..] == terms[k + 1..];
      if !Contains(Lower(r), term) && Contains(promptLower, term) {
        if |r| + |term| + 1 <= maxLength {
          r := r + " " + term;
        }
      }
      k := k + 1;
    }
  }

  /** `optimize_prompt_for_api`. */
  method OptimizePrompt(prompt: string, maxLength: nat) returns (r: string)
    ensures r == OptimizedPrompt(prompt, maxLength)
  {
    if |prompt| <= maxLength {
      return prompt;
    }
    r := AddKeyTermsLoop(Join(KeptWords(prompt, maxLength), " "), Lower(prompt), maxLength, KEY_TERMS);
  }

  /** A prompt that mentions none of the key terms is cut to its first words and nothing more. */
  lemma NoKeyTermsNoAdditions(prompt: string, maxLength: nat)
    requires |prompt| > maxLength
    requires forall i :: 0 <= i < |KEY_TERMS| ==> !Contains(Lower(prompt), KEY_TERMS[i])
    ensures OptimizedPrompt(prompt, maxLength) == Join(KeptWords(prompt, maxLength), " ")
  {
  }

  // ---------------------------------------------------------------------
  // The append-if-absent enhancers
  // ---------------------------------------------------------------------

  /**
   * The enhancers' loop: each term is appended after ", " unless the
   * lower-cased prompt so far already contains it.
   */
  function Appended(p: string, terms: seq<string>): string
    decreases |terms|
  {
    if terms == [] then p
    else Appended(if Contains(Lower(p), terms[0]) then p else p + ", " + terms[0], terms[1..])
  }

  /** The enhancers' loop, as it runs. */
  method AppendAbsent(p: string, terms: seq<string>) returns (r: string)
    ensures r == Appended(p, terms)
  {
    r := p;
    var k := 0;
    while k < |terms|
      invariant 0 <= k <= |terms|
      invariant Appended(r, terms[k..]) == Appended(p, terms)
    {
      assert terms[k..][1..] == terms[k + 1..];
      if !Contains(Lower(r), terms[k]) {
        r := r + ", " + terms[k];
      }
      k := k + 1;
    }
  }

  /** Lower-casing distributes over concatenation. */
  lemma LowerAppend(a: string, b: string)
    ensures Lower(a + b) == Lower(a) + Lower(b)
  {
    assert forall i :: 0 <= i < |a + b| ==> Lower(a + b)[i] == (Lower(a) + Lower(b))[i];
  }

  /** A string ending in `sub` contains it. */
  lemma {:induction false} ContainsSuffix(s: string, sub: string)
    ensures Contains(s + sub, sub)
    decreases |s|
  {
    if s == [] {
      assert s + sub == sub;
      assert (s + sub)[..|sub|] == sub;
    } else {
      assert (s + sub)[1..] == s[1..] + sub;
      ContainsSuffix(s[1..], sub);
    }
  }

  /** The enhancers only append: the original prompt is a prefix of the result. */
  lemma {:induction false} AppendedExtends(p: string, terms: seq<string>)
    ensures |p| <= |Appended(p, terms)| && Appended(p, terms) == p + Appended(p, terms)[|p|..]
    decreases |terms|
  {
    if terms != [] {
      var next := if Contains(Lower(p), terms[0]) then p else p + ", " + terms[0];
      AppendedExtends(next, terms[1..]);
      assert next == p + next[|p|..];
    }
  }

  /** Whatever the prompt mentions, it still mentions after the enhancers run. */
  lemma AppendedKeeps(p: string, terms: seq<string>, t: string)
    requires Contains(Lower(p), t)
    ensures Contains(Lower(Appended(p, terms)), t)
  {
    AppendedExtends(p, terms);
    var rest := Appended(p, terms)[|p|..];
    LowerAppend(p, rest);
    ContainsPrefix(Lower(p), Lower(rest), t);
  }

  /** A string without upper-case letters lowers to itself. */
  lemma NoUpperLower(t: string)
    requires NoUpper(t)
    ensures Lower(t) == t
  {
  }

  /** After the enhancers run, the prompt mentions every (lower-case) term. */
  lemma {:induction false} AppendedMentionsAll(p: string, terms: seq<string>)
    requires forall i :: 0 <= i < |terms| ==> NoUpper(terms[i])
    ensures forall i :: 0 <= i < |terms| ==> Contains(Lower(Appended(p, terms)), terms[i])
    decreases |terms|
  {
    if terms != [] {
      var t := terms[0];
      var next := if Contains(Lower(p), t) then p else p + ", " + t;
      assert Contains(Lower(next), t) by {
        if !Contains(Lower(p), t) {
          NoUpperLower(t);
          LowerAppend(p + ", ", t);
          ContainsSuffix(Lower(p + ", "), t);
        }
      }
      AppendedMentionsAll(next, terms[1..]);
      AppendedKeeps(next, terms[1..], t);
      forall i | 0 <= i < |terms| ensures Contains(Lower(Appended(p, terms)), terms[i]) {
        if i > 0 {
          assert terms[i] == terms[1..][i - 1];
        }
      }
    }
  }

  /** A prompt that already mentions every term is left as it is. */
  lemma {:induction false} AppendedNoop(p: string, terms: seq<string>)
    requires forall i :: 0 <= i < |terms| ==> Contains(Lower(p), terms[i])
    ensures Appended(p, terms) == p
    decreases |terms|
  {
    if terms != [] {
      AppendedNoop(p, terms[1..]);
    }
  }

  /** Running an enhancer twice gives what running it once gives. */
  lemma AppendedIdempotent(p: string, terms: seq<string>)
    requires forall i :: 0 <= i < |terms| ==> NoUpper(terms[i])
    ensures Appended(Appended(p, terms), terms) == Appended(p, terms)
  {
    AppendedMentionsAll(p, terms);
    AppendedNoop(Appended(p, terms), terms);
  }

  // ---------------------------------------------------------------------
  // The enhancers
  // ---------------------------------------------------------------------

  /**
   * The tier `improve_prompt_based_on_quality` picks from the quality gap:
   * more than 0.2, more than 0.1, or the minor tier otherwise.
   */
  function ImprovementTerms(currentQuality: real, targetQuality: real): (terms: seq<string>)
    ensures targetQuality - currentQuality > 0.2 ==> terms == MAJOR_TERMS
    ensures 0.1 < targetQuality - currentQuality <= 0.2 ==> terms == MODERATE_TERMS
    ensures targetQuality - currentQuality <= 0.1 ==> terms == MINOR_TERMS
  {
    var gap := targetQuality - currentQuality;
    if gap > 0.2 then MAJOR_TERMS
    else if gap > 0.1 then MODERATE_TERMS
    else MINOR_TERMS
  }

  /** `improve_prompt_based_on_quality`: the chosen tier's missing terms are appended. */
  method ImprovePrompt(prompt: string, currentQuality: real, targetQuality: real) returns (r: string)
    ensures r == Appended(prompt, ImprovementTerms(currentQuality, targetQuality))
    ensures StartsWith(r, prompt)
  {
    r := AppendAbsent(prompt, ImprovementTerms(currentQuality, targetQuality));
    AppendedExtends(prompt, ImprovementTerms(currentQuality, targetQuality));
  }

  /** `create_maximum_quality_prompt`. */
  method MaximumQualityPrompt(base: string) returns (r: string)
    ensures r == Appended(base, QUALITY_TERMS)
    ensures StartsWith(r, base)
    ensures forall i :: 0 <= i < |QUALITY_TERMS| ==> Contains(Lower(r), QUALITY_TERMS[i])
  {
    r := AppendAbsent(base, QUALITY_TERMS);
    AppendedExtends(base, QUALITY_TERMS);
    QualityTermsNoUpper();
    AppendedMentionsAll(base, QUALITY_TERMS);
  }

  /** `create_maximum_quality_prompt` is idempotent. */
  lemma MaximumQualityIdempotent(base: string)
    ensures Appended(Appended(base, QUALITY_TERMS), QUALITY_TERMS) == Appended(base, QUALITY_TERMS)
  {
    QualityTermsNoUpper();
    AppendedIdempotent(base, QUALITY_TERMS);
  }

  /** `create_chatgpt_quality_prompt`: the first four enhancements, then the first three specifications. */
  method ChatGptQualityPrompt(base: string) returns (r: string)
    ensures r == Appended(Appended(base, QUALITY_ENHANCEMENTS[..4]), TECHNICAL_SPECS[..3])
    ensures StartsWith(r, base)
  {
    var withEnhancements := AppendAbsent(base, QUALITY_ENHANCEMENTS[..4]);
    r := AppendAbsent(withEnhancements, TECHNICAL_SPECS[..3]);
    AppendedExtends(base, QUALITY_ENHANCEMENTS[..4]);
    AppendedExtends(withEnhancements, TECHNICAL_SPECS[..3]);
    assert r[..|withEnhancements|][..|base|] == r[..|base|];
  }

  // ---------------------------------------------------------------------
  // get_material_specifications
  // ---------------------------------------------------------------------

  datatype MaterialSpec = MaterialSpec(materialDescription: string, meshPattern: string, color: string, opacity: string)

  const SPECIFICATIONS: map<string, MaterialSpec> := map[
    "security" := MaterialSpec("heavy-duty stainless steel mesh with robust mounting system",
                               "fine security mesh pattern", "charcoal or black frame", "high visibility through mesh"),
    "lifestyle" := MaterialSpec("fine mesh fabric for privacy and comfort", "elegant fine weave pattern",
                                "neutral tones matching architecture", "balanced privacy and visibility"),
    "solar" := MaterialSpec("UV-blocking solar mesh for energy efficiency", "specialized solar blocking weave",
                            "dark mesh for maximum UV protection", "optimized for solar control"),
    "environmental" := MaterialSpec("environmental protection mesh for comfort", "fine environmental mesh pattern",
                                    "natural tones", "balanced environmental protection"),
    "pet_resistant" := MaterialSpec("durable pet-resistant mesh material", "reinforced mesh pattern",
                                    "durable finish", "clear visibility with pet protection")]

  /** `get_material_specifications`: the type's entry, or the security entry for any other type. */
  function MaterialSpecifications(screenType: string): (spec: MaterialSpec)
    ensures screenType !in SPECIFICATIONS ==> spec == SPECIFICATIONS["security"]
    ensures screenType in SPECIFICATIONS ==> spec == SPECIFICATIONS[screenType]
    ensures spec.materialDescription != ""
  {
    if screenType in SPECIFICATIONS then SPECIFICATIONS[screenType] else SPECIFICATIONS["security"]
  }

  // ---------------------------------------------------------------------
  // create_reference_enhanced_prompt
  // ---------------------------------------------------------------------

  /** The reference categories, in the order their specifications are added, with three specifications each. */
  const REFERENCE_SPECS: seq<(string, seq<string>)> := [
    ("real_installs", ["based on real professional installations", "authentic screen mounting and alignment",
                       "realistic frame integration with window structures"]),
    ("fabric_samples", ["accurate mesh pattern and texture", "realistic material opacity and light filtering",
                        "authentic fabric weave appearance"]),
    ("top_tier_renders", ["professional architectural visualization quality",
                          "precise perspective and dimensional accuracy", "high-end rendering standards"]),
    ("angle_variations", ["correct perspective alignment with window angles",
                          "accurate depth and dimensional representation", "proper screen plane orientation"]),
    ("lighting_examples", ["natural lighting interaction with screen material",
                           "realistic shadows and light filtering effects",
                           "authentic material reflectance properties"]),
    ("brand_samples", ["brand-accurate material specifications", "authentic product appearance and finish",
                       "manufacturer-standard installation details"])]

  /** The reference lists by category, each given by its length. */
  type References = map<string, nat>

  /** Whether a category has a non-empty list. */
  predicate Present(refs: References, category: string)
  {
    category in refs && refs[category] > 0
  }

  /** The specifications of the present categories among `cats`, in order. */
  function SpecsOf(refs: References, cats: seq<(string, seq<string>)>): (specs: seq<string>)
    ensures |specs| <= 3 * |cats| || exists i :: 0 <= i < |cats| && |cats[i].1| > 3
    ensures (forall i :: 0 <= i < |cats| ==> !Present(refs, cats[i].0)) ==> specs == []
    decreases |cats|
  {
    if cats == [] then []
    else (if Present(refs, cats[0].0) then cats[0].1 else []) + SpecsOf(refs, cats[1..])
  }

  /** The specifications the reference categories contribute, before the limit of six. */
  function ReferenceSpecs(refs: References): (specs: seq<string>)
    ensures |specs| <= 18
  {
    SpecsOf(refs, REFERENCE_SPECS)
  }

  /** The specifications that enter the prompt: at most the first six. */
  function IncludedSpecs(refs: References): (specs: seq<string>)
    ensures |specs| == Min(6, |ReferenceSpecs(refs)|) && |specs| <= 6
    ensures specs == ReferenceSpecs(refs)[..|specs|]
  {
    ReferenceSpecs(refs)[..Min(6, |ReferenceSpecs(refs)|)]
  }

  /** What closes an enhanced prompt: the material description, then the fixed quality requirements. */
  function Closing(material: string): (c: string)
    ensures |c| >= |material| + 2 && c[2..2 + |material|] == material
  {
    ", " + material + QUALITY_TAIL
  }

  /**
   * `create_reference_enhanced_prompt`: the base prompt as it is when every
   * reference list is empty; otherwise the base, then at most six reference
   * specifications, the screen type's material description and the fixed
   * quality requirements.
   */
  function ReferenceEnhancedPrompt(base: string, screenType: string, refs: References): (r: string)
    ensures (forall k :: k in refs ==> refs[k] == 0) ==> r == base
    ensures !(forall k :: k in refs ==> refs[k] == 0) ==>
      r == WithSpecs(base, IncludedSpecs(refs), Closing(MaterialSpecifications(screenType).materialDescription))
    ensures StartsWith(r, base)
  {
    if forall k :: k in refs ==> refs[k] == 0 then base
    else WithSpecs(base, IncludedSpecs(refs), Closing(MaterialSpecifications(screenType).materialDescription))
  }

  /** With every list empty, no category is present, so no specification would have been added either. */
  lemma EmptyReferencesNoSpecs(refs: References)
    requires forall k :: k in refs ==> refs[k] == 0
    ensures ReferenceSpecs(refs) == []
  {
  }

  /** Lists only under categories it does not know still enhance the prompt, with no reference specification. */
  lemma UnknownCategoriesStillEnhance(base: string, screenType: string, refs: References)
    requires exists k :: k in refs && refs[k] > 0
    requires forall i :: 0 <= i < |REFERENCE_SPECS| ==> !Present(refs, REFERENCE_SPECS[i].0)
    ensures ReferenceEnhancedPrompt(base, screenType, refs) ==
      base + Closing(MaterialSpecifications(screenType).materialDescription)
  {
    NoKnownCategory(refs);
    assert IncludedSpecs(refs) == [];
    assert !(forall k :: k in refs ==> refs[k] == 0);
  }

  lemma NoKnownCategory(refs: References)
    requires forall i :: 0 <= i < |REFERENCE_SPECS| ==> !Present(refs, REFERENCE_SPECS[i].0)
    ensures ReferenceSpecs(refs) == []
  {
  }
}
