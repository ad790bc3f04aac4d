/**
 * What the prompt of api-workflows/qwen_edit_3loras_2outputs.ts promises: two sampler passes
 * that differ only in their seed, each saved on its own, over one chain of three LoRAs.
 * `NodeAt(input, k)` is node `k` of `Generate(input)` (`QwenEdit3Loras2Outputs.GenerateAt`).
 */
module QwenEdit3Loras2OutputsProperties {
  import opened ComfyGraph
  import opened QwenEdit3Loras2OutputsRequest
  import opened QwenEdit3Loras2Outputs

  /**
   * Sampler "103" is sampler "3" with the next seed: same settings, model "75", conditionings
   * "76" and "77" and latent "88", and a different seed.
   */
  lemma SecondPassOnlyReseeds(input: Request)
    ensures Node3(input).classType == "KSampler"
    ensures Node3(input).inputs["seed"] == N(input.seed)
    ensures Node103(input) == Node3(input).(inputs := Node3(input).inputs["seed" := N(input.seed + 1)])
    ensures Node3(input).inputs["seed"] != Node103(input).inputs["seed"]
    ensures Node3(input).inputs["model"] == Ref(75, 0) && Node3(input).inputs["latent_image"] == Ref(88, 0)
    ensures Node3(input).inputs["positive"] == Ref(76, 0) && Node3(input).inputs["negative"] == Ref(77, 0)
  {
  }

  /**
   * There are exactly two outputs, SaveImage nodes "60" and "105", each saving the decode of its
   * own sampler (60 of 8 of 3, 105 of 104 of 103).
   */
  lemma TwoOutputs(input: Request)
    ensures NodesOfClass(Generate(input), "SaveImage") == {60, 105}
    ensures Node60(input).inputs["images"] == Ref(8, 0) && Node8(input).inputs["samples"] == Ref(3, 0)
    ensures Node105(input).inputs["images"] == Ref(104, 0) && Node104(input).inputs["samples"] == Ref(103, 0)
  {
  }

  /**
   * The model reaches the samplers through the loader "37", the LoRAs 1, 2 and 3 ("101", "102",
   * "109") in that order, then "66" and "75".
   */
  lemma LoraChain(input: Request)
    ensures Node101(input).inputs["model"] == Ref(37, 0) && Node101(input).inputs["lora_name"] == S(input.lora_1_name)
    ensures Node102(input).inputs["model"] == Ref(101, 0) && Node102(input).inputs["lora_name"] == S(input.lora_2_name)
    ensures Node109(input).inputs["model"] == Ref(102, 0) && Node109(input).inputs["lora_name"] == S(input.lora_3_name)
    ensures Node66(input).inputs["model"] == Ref(109, 0) && Node75(input).inputs["model"] == Ref(66, 0)
  {
  }

  /** `upscale_method` and `megapixels` are the settings of the scaler "93", which scales the loaded image "78". */
  lemma ScalerSettings(input: Request)
    ensures Node93(input).classType == "ImageScaleToTotalPixels"
    ensures Node93(input).inputs["upscale_method"] == S(input.upscale_method)
    ensures Node93(input).inputs["megapixels"] == R(input.megapixels)
    ensures Node93(input).inputs["image"] == Ref(78, 0)
  {
  }

  /** The prompt is the text of encoder "76" and appears nowhere else. */
  lemma PromptOnlyAt76(input: Request, prompt: string)
    ensures var n := NodeAt(input, 76);
      NodeAt(input.(prompt := prompt), 76) == n.(inputs := n.inputs["prompt" := S(prompt)])
    ensures forall k | k != 76 :: NodeAt(input.(prompt := prompt), k) == NodeAt(input, k)
  {
    var other := input.(prompt := prompt);
    assert other.image == input.image;
  }

  /** The negative prompt is the text of encoder "77" and appears nowhere else. */
  lemma NegativePromptOnlyAt77(input: Request, negative: string)
    ensures var n := NodeAt(input, 77);
      NodeAt(input.(negative_prompt := negative), 77) == n.(inputs := n.inputs["prompt" := S(negative)])
    ensures forall k | k != 77 :: NodeAt(input.(negative_prompt := negative), k) == NodeAt(input, k)
  {
    var other := input.(negative_prompt := negative);
    assert other.image == input.image;
  }
}
