/**
 * What the prompt of api-workflows/kontext_dev.ts promises: one seed node feeding both the
 * sampler and the wildcard expansion, the prompt's way through the text nodes to the encoder,
 * the `<restoreface>` switch, and the ten LoRA slots. `NodeAt(input, k)` is node `k` of
 * `Generate(input)` (`KontextDev.GenerateAt`).
 */
module KontextDevProperties {
  import opened ComfyGraph
  import opened KontextDevRequest
  import opened KontextDev

  /** The seed is the value of Seed node "197" and appears nowhere else. */
  lemma SeedOnlyAt197(input: Request, seed: int)
    ensures var n := NodeAt(input, 197);
      && n.classType == "Seed"
      && NodeAt(input.(seed := seed), 197) == n.(inputs := n.inputs["seed" := N(seed)])
    ensures forall k | k != 197 :: NodeAt(input.(seed := seed), k) == NodeAt(input, k)
  {
    var other := input.(seed := seed);
    assert other.prompt == input.prompt;
  }

  /** The sampler "31" and the wildcard expansion "195" both read output 3 of the Seed node "197". */
  lemma SeedReadFrom197(input: Request)
    ensures Node31(input).inputs["seed"] == Ref(197, 3)
    ensures Node195(input).inputs["seed"] == Ref(197, 3)
  {
  }

  /** The prompt is the text of node "191" and appears nowhere else. */
  lemma PromptOnlyAt191(input: Request, prompt: string)
    ensures var n := NodeAt(input, 191);
      NodeAt(input.(prompt := prompt), 191) == n.(inputs := n.inputs["text" := S(prompt)])
    ensures forall k | k != 191 :: NodeAt(input.(prompt := prompt), k) == NodeAt(input, k)
  {
    var other := input.(prompt := prompt);
    assert other.image == input.image;
  }

  /**
   * The prompt reaches the encoder "6" through the split "192", the wildcards "195", the
   * newline removal "193" and the tag removal "194", in that order.
   */
  lemma PromptPath(input: Request)
    ensures Node192(input).inputs["text"] == Ref(191, 0)
    ensures Node195(input).inputs["prompt"] == Ref(192, 0)
    ensures Node193(input).inputs["string"] == Ref(195, 0)
    ensures Node194(input).inputs["string"] == Ref(193, 0)
    ensures Node6(input).inputs["text"] == Ref(194, 0)
  {
  }

  /** There is one output, SaveImage "136". */
  lemma OneOutput(input: Request)
    ensures NodesOfClass(Generate(input), "SaveImage") == {136}
  {
  }

  /**
   * The output "136" saves the switch "200": the face-restored image "202" when the text
   * "193" contains `<restoreface>` (in any case), the plain decode "8" otherwise. The test reads
   * the text before "194" strips the tags from what the encoder sees.
   */
  lemma RestoreFaceSwitch(input: Request)
    ensures Node136(input).inputs["images"] == Ref(200, 0)
    ensures Node200(input).inputs["cond"] == Ref(201, 0)
    ensures Node200(input).inputs["tt_value"] == Ref(202, 0) && Node202(input).inputs["image"] == Ref(8, 0)
    ensures Node200(input).inputs["ff_value"] == Ref(8, 0)
  {
  }

  /** The switch's test looks for `<restoreface>`, ignoring case, in the output of "193". */
  lemma RestoreFaceTest(input: Request)
    ensures Node201(input).inputs["sub_text"] == S("<restoreface>")
    ensures Node201(input).inputs["case_insensitive"] == B(true)
    ensures Node201(input).inputs["text"] == Ref(193, 0)
  {
  }

  /**
   * TooManyLoras "190" holds the request's ten LoRAs in slots 01 to 10 and nothing else
   * besides its two links; its model output feeds the sampler and its clip output the encoder.
   */
  lemma LoraSlots(input: Request)
    ensures Node190(input).inputs - {"model", "clip"} == map[
      "lora_01" := S(input.lora_1_name), "strength_01" := R(input.lora_1_strength),
      "lora_02" := S(input.lora_2_name), "strength_02" := R(input.lora_2_strength),
      "lora_03" := S(input.lora_3_name), "strength_03" := R(input.lora_3_strength),
      "lora_04" := S(input.lora_4_name), "strength_04" := R(input.lora_4_strength),
      "lora_05" := S(input.lora_5_name), "strength_05" := R(input.lora_5_strength),
      "lora_06" := S(input.lora_6_name), "strength_06" := R(input.lora_6_strength),
      "lora_07" := S(input.lora_7_name), "strength_07" := R(input.lora_7_strength),
      "lora_08" := S(input.lora_8_name), "strength_08" := R(input.lora_8_strength),
      "lora_09" := S(input.lora_9_name), "strength_09" := R(input.lora_9_strength),
      "lora_10" := S(input.lora_10_name), "strength_10" := R(input.lora_10_strength)]
  {
  }

  /** The sampler uses the LoRA node's model output 0 and the encoder its clip output 1. */
  lemma LoraOutputsUsed(input: Request)
    ensures Node31(input).inputs["model"] == Ref(190, 0)
    ensures Node6(input).inputs["clip"] == Ref(190, 1)
  {
  }
}
