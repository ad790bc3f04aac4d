/**
 * Node "331" (AILab_MaskEnhancer) of api-workflows/nunchaku_qwen_edit_sam2.ts reads six request
 * fields, `mask_enhancer_sensitivity` to `mask_enhancer_invert_output`, that `RequestSchema`
 * does not declare. Zod strips undeclared keys, so after `RequestSchema.parse` the six are
 * always `undefined`, whatever the caller sent, and the prompt always carries six undefined
 * inputs. This module shows that for the parse as written, and proves that a parse which
 * declares the six fields yields prompts without any undefined input.
 */
module NunchakuQwenEditSam2Enhancer {
  import opened Wrappers
  import opened JsonValue
  import opened Zod
  import opened ComfyGraph
  import opened NunchakuQwenEditSam2Request
  import opened NunchakuQwenEditSam2

  /** As written: every parsed request lacks all six fields, even when the caller supplied them. */
  lemma ParseDropsEnhancerFields(raw: map<string, Json>, config: Config, drawnSeed: int)
    ensures var r := Parse(raw, config, drawnSeed); r.Some? ==>
      && r.value.mask_enhancer_sensitivity.None?
      && r.value.mask_enhancer_blur.None?
      && r.value.mask_enhancer_offset.None?
      && r.value.mask_enhancer_smooth.None?
      && r.value.mask_enhancer_fill_holes.None?
      && r.value.mask_enhancer_invert_output.None?
  {
  }

  /** Without a sensitivity node "331" has an undefined input. */
  lemma MissingSensitivityIsUndefined(input: Request)
    requires input.mask_enhancer_sensitivity.None?
    ensures Node331(input).inputs["sensitivity"] == Undefined
    ensures !Defined(Node331(input))
  {
    var n := Node331(input);
    assert n.inputs["sensitivity"] in n.inputs.Values;
  }

  /** A node "331" with an undefined input makes the whole prompt have one. */
  lemma UndefinedAt331(input: Request)
    requires !Defined(Node331(input))
    ensures !AllDefined(Generate(input))
  {
    GenerateAt(input, 331);
  }

  /** As written: the prompt built from any parsed request has undefined inputs. */
  lemma ParsedPromptIsNotDefined(raw: map<string, Json>, config: Config, drawnSeed: int)
    requires Parse(raw, config, drawnSeed).Some?
    ensures !AllDefined(Generate(Parse(raw, config, drawnSeed).value))
  {
    ParseDropsEnhancerFields(raw, config, drawnSeed);
    MissingSensitivityIsUndefined(Parse(raw, config, drawnSeed).value);
    UndefinedAt331(Parse(raw, config, drawnSeed).value);
  }

  /** The six fields are present with the JSON type each is declared with. */
  predicate EnhancerFieldsSupplied(raw: map<string, Json>) {
    && "mask_enhancer_sensitivity" in raw && raw["mask_enhancer_sensitivity"].JNum?
    && "mask_enhancer_blur" in raw && raw["mask_enhancer_blur"].JNum?
    && "mask_enhancer_offset" in raw && raw["mask_enhancer_offset"].JNum?
    && "mask_enhancer_smooth" in raw && raw["mask_enhancer_smooth"].JNum?
    && "mask_enhancer_fill_holes" in raw && raw["mask_enhancer_fill_holes"].JBool?
    && "mask_enhancer_invert_output" in raw && raw["mask_enhancer_invert_output"].JBool?
  }

  /**
   * The six declared fields read from `raw` on top of a request the rest of the schema
   * accepted: a required `z.number()` or `z.boolean()` each (the source gives no value they
   * could default to).
   */
  function WithEnhancer(raw: map<string, Json>, parsed: Option<Request>): (r: Option<Request>)
  {
    var sensitivity := ReadNumber(raw, "mask_enhancer_sensitivity", None, None, None);
    var blur := ReadNumber(raw, "mask_enhancer_blur", None, None, None);
    var offset := ReadNumber(raw, "mask_enhancer_offset", None, None, None);
    var smooth := ReadNumber(raw, "mask_enhancer_smooth", None, None, None);
    var fillHoles := ReadBool(raw, "mask_enhancer_fill_holes", None);
    var invertOutput := ReadBool(raw, "mask_enhancer_invert_output", None);
    match parsed
    case Some(input) =>
      if sensitivity.Some? && blur.Some? && offset.Some? && smooth.Some? && fillHoles.Some? && invertOutput.Some? then
        Some(input.(
          mask_enhancer_sensitivity := sensitivity,
          mask_enhancer_blur := blur,
          mask_enhancer_offset := offset,
          mask_enhancer_smooth := smooth,
          mask_enhancer_fill_holes := fillHoles,
          mask_enhancer_invert_output := invertOutput))
      else
        None
    case None => None
  }

  /**
   * Reading the six fields succeeds exactly when they are supplied with their types, and then
   * changes nothing but the six, which take the values the caller sent.
   */
  lemma WithEnhancerSpec(raw: map<string, Json>, parsed: Option<Request>)
    ensures var r := WithEnhancer(raw, parsed);
      && (r.Some? <==> parsed.Some? && EnhancerFieldsSupplied(raw))
      && (r.Some? ==> r.value == parsed.value.(
            mask_enhancer_sensitivity := Some(raw["mask_enhancer_sensitivity"].n),
            mask_enhancer_blur := Some(raw["mask_enhancer_blur"].n),
            mask_enhancer_offset := Some(raw["mask_enhancer_offset"].n),
            mask_enhancer_smooth := Some(raw["mask_enhancer_smooth"].n),
            mask_enhancer_fill_holes := Some(raw["mask_enhancer_fill_holes"].b),
            mask_enhancer_invert_output := Some(raw["mask_enhancer_invert_output"].b)))
  {
  }

  /** Corrected: `RequestSchema` with the six fields declared. */
  function ParseDeclaringEnhancer(raw: map<string, Json>, config: Config, drawnSeed: int): Option<Request>
  {
    WithEnhancer(raw, Parse(raw, config, drawnSeed))
  }

  /** Corrected: every request it accepts satisfies the schema's bounds and memberships. */
  lemma CorrectedParseIsValid(raw: map<string, Json>, config: Config, drawnSeed: int)
    ensures var r := ParseDeclaringEnhancer(raw, config, drawnSeed); r.Some? ==> Valid(r.value, config)
  {
    WithEnhancerSpec(raw, Parse(raw, config, drawnSeed));
    ParsedIsValid(raw, config, drawnSeed);
  }

  /** Once the six fields are read, the prompt has no undefined input. */
  lemma DeclaredPromptIsDefined(raw: map<string, Json>, parsed: Option<Request>)
    ensures var r := WithEnhancer(raw, parsed); r.Some? ==>
      && MaskEnhancerGiven(r.value)
      && AllDefined(Generate(r.value))
  {
    var r := WithEnhancer(raw, parsed);
    WithEnhancerSpec(raw, parsed);
    if r.Some? {
      WellFormed(r.value);
    }
  }

  /** Corrected: every request it accepts carries the six fields, and its prompt has no undefined input. */
  lemma CorrectedPromptIsDefined(raw: map<string, Json>, config: Config, drawnSeed: int)
    ensures var r := ParseDeclaringEnhancer(raw, config, drawnSeed); r.Some? ==>
      && MaskEnhancerGiven(r.value)
      && AllDefined(Generate(r.value))
  {
    DeclaredPromptIsDefined(raw, Parse(raw, config, drawnSeed));
  }
}
