/**
 * Where api-workflows/qwen_edit_manyloras_1output.ts puts the request's fields. `NodeAt(input, k)`
 * is node `k` of `Generate(input)` (`QwenEditManyLoras1Output.GenerateAt`).
 */
module QwenEditManyLoras1OutputProperties {
  import opened ComfyGraph
  import opened QwenEditManyLoras1OutputRequest
  import opened QwenEditManyLoras1Output

  /**
   * The request's one LoRA fills slot 01 of TooManyLoras "102", which reads model loader "37"
   * and CLIP loader "38"; `OtherSlotsSwitchedOff` fixes the rest of the node.
   */
  lemma LoraOnlyInSlot01(input: Request)
    ensures Node102(input).classType == "TooManyLoras"
    ensures Node102(input).inputs["lora_01"] == S(input.lora_1_name)
    ensures Node102(input).inputs["strength_01"] == R(input.lora_1_strength)
    ensures Node102(input).inputs["model"] == Ref(37, 0) && Node102(input).inputs["clip"] == Ref(38, 0)
  {
  }

  /** No node but "102" depends on the request's LoRA. */
  lemma LoraReachesOnly102(input: Request, name: string, strength: real)
    ensures forall k | k != 102 ::
      NodeAt(input.(lora_1_name := name, lora_1_strength := strength), k) == NodeAt(input, k)
  {
    var other := input.(lora_1_name := name, lora_1_strength := strength);
    assert other.prompt == input.prompt;
  }

  /** Nothing but the LoRA of slot 01 decides node "102": two requests with the same one get the same node. */
  lemma LoraNodeDependsOnlyOnSlot01(a: Request, b: Request)
    requires a.lora_1_name == b.lora_1_name && a.lora_1_strength == b.lora_1_strength
    ensures NodeAt(a, 102) == NodeAt(b, 102)
  {
  }

  /**
   * Apart from slot 01 and its two links, node "102" is fixed: slots 02 to 10 are switched off,
   * LoRA "None" at strength 1.
   */
  lemma OtherSlotsSwitchedOff(input: Request)
    ensures Node102(input).inputs - {"lora_01", "strength_01", "model", "clip"} == map[
      "lora_02" := S("None"), "strength_02" := N(1),
      "lora_03" := S("None"), "strength_03" := N(1),
      "lora_04" := S("None"), "strength_04" := N(1),
      "lora_05" := S("None"), "strength_05" := N(1),
      "lora_06" := S("None"), "strength_06" := N(1),
      "lora_07" := S("None"), "strength_07" := N(1),
      "lora_08" := S("None"), "strength_08" := N(1),
      "lora_09" := S("None"), "strength_09" := N(1),
      "lora_10" := S("None"), "strength_10" := N(1)]
  {
  }

  /** There is one sampler, "3", and it is seeded with the request's seed. */
  lemma OneSampler(input: Request)
    ensures NodesOfClass(Generate(input), "KSampler") == {3}
    ensures Node3(input).inputs["seed"] == N(input.seed)
  {
  }

  /** There is one output, SaveImage "60", and it saves the decode of sampler "3". */
  lemma OneOutput(input: Request)
    ensures NodesOfClass(Generate(input), "SaveImage") == {60}
    ensures Node60(input).inputs["images"] == Ref(8, 0) && Node8(input).inputs["samples"] == Ref(3, 0)
  {
  }

  /** Both encoders take the text encoder straight from loader "38", not through the LoRA node. */
  lemma EncodersBypassLoras(input: Request)
    ensures Node76(input).inputs["clip"] == Ref(38, 0)
    ensures Node77(input).inputs["clip"] == Ref(38, 0)
  {
  }

  /** The prompt is the text of encoder "76" and appears nowhere else. */
  lemma PromptOnlyAt76(input: Request, prompt: string)
    ensures var n := NodeAt(input, 76);
      NodeAt(input.(prompt := prompt), 76) == n.(inputs := n.inputs["prompt" := S(prompt)])
    ensures forall k | k != 76 :: NodeAt(input.(prompt := prompt), k) == NodeAt(input, k)
  {
    var other := input.(prompt := prompt);
    assert other.image == input.image;
  }

  /** The negative prompt is the text of encoder "77" and appears nowhere else. */
  lemma NegativePromptOnlyAt77(input: Request, negative: string)
    ensures var n := NodeAt(input, 77);
      NodeAt(input.(negative_prompt := negative), 77) == n.(inputs := n.inputs["prompt" := S(negative)])
    ensures forall k | k != 77 :: NodeAt(input.(negative_prompt := negative), k) == NodeAt(input, k)
  {
    var other := input.(negative_prompt := negative);
    assert other.image == input.image;
  }
}
