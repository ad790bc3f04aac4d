/**
 * What the prompt of api-workflows/nunchaku_qwen_edit_conditions.ts promises: tags in the
 * prompt switch face restoration, background removal and upscaling on and off, one Seed node
 * feeds the sampler and the wildcards, the two extra images of the request are never used, and
 * the request's ten LoRAs sit in one TooManyLoras node. `NodeAt(input, k)` is node `k` of
 * `Generate(input)` (`NunchakuQwenEditConditions.GenerateAt`).
 */
module NunchakuQwenEditConditionsProperties {
  import opened ComfyGraph
  import opened NunchakuQwenEditConditionsRequest
  import opened NunchakuQwenEditConditions

  /** `image_2` and `image_3` are accepted but reach no node: the prompt does not depend on them. */
  lemma ExtraImagesUnused(input: Request, image2: string, image3: string)
    ensures Generate(input.(image_2 := image2, image_3 := image3)) == Generate(input)
  {
    var other := input.(image_2 := image2, image_3 := image3);
    assert other.image == input.image;
    assert forall k :: NodeAt(other, k) == NodeAt(input, k);
  }

  /** The seed is the value of Seed node "274" and appears nowhere else. */
  lemma SeedOnlyAt274(input: Request, seed: real)
    ensures var n := NodeAt(input, 274);
      && n.classType == "Seed"
      && NodeAt(input.(seed := seed), 274) == n.(inputs := n.inputs["seed" := R(seed)])
    ensures forall k | k != 274 :: NodeAt(input.(seed := seed), k) == NodeAt(input, k)
  {
    var other := input.(seed := seed);
    assert other.prompt == input.prompt;
  }

  /** The sampler "118" and the wildcard expansion "282" both read output 3 of the Seed node "274". */
  lemma SeedReadFrom274(input: Request)
    ensures Node118(input).inputs["seed"] == Ref(274, 3)
    ensures Node282(input).inputs["seed"] == Ref(274, 3)
  {
  }

  /** The prompt is the text of node "177" and appears nowhere else. */
  lemma PromptOnlyAt177(input: Request, prompt: string)
    ensures var n := NodeAt(input, 177);
      NodeAt(input.(prompt := prompt), 177) == n.(inputs := n.inputs["text" := S(prompt)])
    ensures forall k | k != 177 :: NodeAt(input.(prompt := prompt), k) == NodeAt(input, k)
  {
    var other := input.(prompt := prompt);
    assert other.image == input.image;
  }

  /** The encoder "128" reads the wildcard expansion "282" of the prompt after its tags are stripped ("184"). */
  lemma EncoderReadsUntagged(input: Request)
    ensures Node128(input).inputs["prompt"] == Ref(282, 0)
    ensures Node282(input).inputs["prompt"] == Ref(184, 0)
    ensures Node184(input).inputs["string"] == Ref(183, 0)
  {
  }

  /**
   * The tag tests "191", "192" and "219" look for `<restoreface>`, `<rmbg>` and `<upscale>`,
   * ignoring case, in the text "183" (the prompt before its tags are stripped).
   */
  lemma TagTests(input: Request)
    ensures Node191(input).inputs["sub_text"] == S("<restoreface>") && Node191(input).inputs["text"] == Ref(183, 0)
    ensures Node192(input).inputs["sub_text"] == S("<rmbg>") && Node192(input).inputs["text"] == Ref(183, 0)
    ensures Node219(input).inputs["sub_text"] == S("<upscale>") && Node219(input).inputs["text"] == Ref(183, 0)
    ensures Node191(input).inputs["case_insensitive"] == B(true)
    ensures Node192(input).inputs["case_insensitive"] == B(true)
    ensures Node219(input).inputs["case_insensitive"] == B(true)
  {
  }

  /**
   * The output, SaveImage "120", saves the branch "247": with `<restoreface>` the face-restored
   * image "167", otherwise the downscaled decode "293"; the restorer works on "293" too.
   */
  lemma RestoreFaceBranch(input: Request)
    ensures Node120(input).classType == "SaveImage" && Node120(input).inputs["images"] == Ref(247, 0)
    ensures Node247(input).inputs["cond"] == Ref(191, 0)
    ensures Node247(input).inputs["tt_value"] == Ref(167, 0) && Node167(input).inputs["image"] == Ref(293, 0)
    ensures Node247(input).inputs["ff_value"] == Ref(293, 0)
  {
  }

  /** `face_restore_downscale` is the factor by which "293" shrinks the decode "286" of the sampler "118". */
  lemma Downscale(input: Request)
    ensures Node293(input).inputs["scale_by"] == R(input.face_restore_downscale)
    ensures Node293(input).inputs["images"] == Ref(286, 0)
    ensures Node286(input).inputs["samples"] == Ref(118, 0)
  {
  }

  /**
   * With `<rmbg>` the encoder and the latent see the cut-out composite "152", otherwise the
   * image "254" before background removal.
   */
  lemma RmbgBranch(input: Request)
    ensures Node252(input).inputs["cond"] == Ref(192, 0)
    ensures Node252(input).inputs["tt_value"] == Ref(152, 0) && Node152(input).inputs["source"] == Ref(123, 0)
    ensures Node252(input).inputs["ff_value"] == Ref(254, 0) && Node123(input).inputs["image"] == Ref(254, 0)
    ensures Node128(input).inputs["image1"] == Ref(252, 0) && Node88(input).inputs["pixels"] == Ref(252, 0)
  {
  }

  /**
   * With `<upscale>` the image is the scaled output "270" of the upscaler "154", otherwise the
   * scaled loaded image "269".
   */
  lemma UpscaleBranch(input: Request)
    ensures Node254(input).inputs["cond"] == Ref(219, 0)
    ensures Node254(input).inputs["tt_value"] == Ref(270, 0) && Node270(input).inputs["image"] == Ref(154, 0)
    ensures Node254(input).inputs["ff_value"] == Ref(269, 0) && Node269(input).inputs["image"] == Ref(78, 0)
  {
  }

  /**
   * The upscaler gets the loaded image "78" as is when its pixel count is below the limit "231",
   * and the scaled image "269" otherwise.
   */
  lemma UpscalerInputBySize(input: Request)
    ensures Node154(input).inputs["image"] == Ref(255, 0)
    ensures Node255(input).inputs["cond"] == Ref(231, 0)
    ensures Node255(input).inputs["tt_value"] == Ref(78, 0) && Node255(input).inputs["ff_value"] == Ref(269, 0)
  {
  }

  /**
   * The size test "231" compares `a < b` with a the pixel count "228" (width times height of the
   * loaded image) and b the megapixels times 1048576 ("263").
   */
  lemma SizeTest(input: Request)
    ensures Node231(input).inputs["comparison"] == S("a < b")
    ensures Node231(input).inputs["a"] == Ref(228, 0) && Node231(input).inputs["b"] == Ref(263, 0)
    ensures Node228(input).inputs["a"] == Ref(227, 0) && Node228(input).inputs["b"] == Ref(227, 1)
    ensures Node263(input).inputs["a"] == Ref(261, 0) && Node263(input).inputs["b"] == N(1048576)
    ensures Node261(input).inputs["value"] == R(input.megapixels)
  {
  }

  /**
   * TooManyLoras "117" holds the request's ten LoRAs in slots 01 to 10 and nothing else
   * besides its links to the loaders "37" and "38".
   */
  lemma LoraSlots(input: Request)
    ensures Node117(input).inputs["model"] == Ref(37, 0) && Node117(input).inputs["clip"] == Ref(38, 0)
    ensures Node117(input).inputs - {"model", "clip"} == map[
      "lora_01" := S(input.lora_1_name), "strength_01" := R(input.lora_1_strength),
      "lora_02" := S(input.lora_2_name), "strength_02" := R(input.lora_2_strength),
      "lora_03" := S(input.lora_3_name), "strength_03" := R(input.lora_3_strength),
      "lora_04" := S(input.lora_4_name), "strength_04" := R(input.lora_4_strength),
      "lora_05" := S(input.lora_5_name), "strength_05" := R(input.lora_5_strength),
      "lora_06" := S(input.lora_6_name), "strength_06" := R(input.lora_6_strength),
      "lora_07" := S(input.lora_7_name), "strength_07" := R(input.lora_7_strength),
      "lora_08" := S(input.lora_8_name), "strength_08" := R(input.lora_8_strength),
      "lora_09" := S(input.lora_9_name), "strength_09" := R(input.lora_9_strength),
      "lora_10" := S(input.lora_10_name), "strength_10" := R(input.lora_10_strength)]
  {
  }

  /** The sampler's model comes from the LoRA node through "66" and "75"; the encoder's text encoder is its output 1. */
  lemma LoraOutputsUsed(input: Request)
    ensures Node118(input).inputs["model"] == Ref(75, 0) && Node75(input).inputs["model"] == Ref(66, 0)
    ensures Node66(input).inputs["model"] == Ref(117, 0)
    ensures Node128(input).inputs["clip"] == Ref(117, 1)
  {
  }

  /** Loader "78" is the only node that loads an image. */
  lemma OneImageLoader(input: Request)
    ensures NodesOfClass(Generate(input), "LoadImage") == {78}
  {
    forall k | k in Generate(input)
      ensures Generate(input)[k].classType == "LoadImage" <==> k == 78
    {
      GenerateAt(input, k);
      LoaderAndOutputClasses(input, k);
    }
  }

  /** "120" is the only SaveImage node: the prompt has one output. */
  lemma OneOutput(input: Request)
    ensures NodesOfClass(Generate(input), "SaveImage") == {120}
  {
    forall k | k in Generate(input)
      ensures Generate(input)[k].classType == "SaveImage" <==> k == 120
    {
      GenerateAt(input, k);
      LoaderAndOutputClasses(input, k);
    }
  }

  /** Of all the nodes, only "78" is a LoadImage and only "120" a SaveImage; split by key range to keep each proof small. */
  lemma LoaderAndOutputClasses(input: Request, k: NodeId)
    requires k in Keys
    ensures NodeAt(input, k).classType == "LoadImage" <==> k == 78
    ensures NodeAt(input, k).classType == "SaveImage" <==> k == 120
  {
    if k < 129 {
      LoaderAndOutputBelow129(input, k);
    } else if k < 184 {
      NoLoaderOrOutputFrom129(input, k);
    } else if k < 254 {
      NoLoaderOrOutputFrom184(input, k);
    } else {
      NoLoaderOrOutputFrom254(input, k);
    }
  }

  lemma LoaderAndOutputBelow129(input: Request, k: NodeId)
    requires k in Keys && k < 129
    ensures NodeAt(input, k).classType == "LoadImage" <==> k == 78
    ensures NodeAt(input, k).classType == "SaveImage" <==> k == 120
  {
  }

  lemma NoLoaderOrOutputFrom129(input: Request, k: NodeId)
    requires k in Keys && 129 <= k < 184
    ensures NodeAt(input, k).classType != "LoadImage" && NodeAt(input, k).classType != "SaveImage"
  {
  }

  lemma NoLoaderOrOutputFrom184(input: Request, k: NodeId)
    requires k in Keys && 184 <= k < 254
    ensures NodeAt(input, k).classType != "LoadImage" && NodeAt(input, k).classType != "SaveImage"
  {
  }

  lemma NoLoaderOrOutputFrom254(input: Request, k: NodeId)
    requires k in Keys && 254 <= k
    ensures NodeAt(input, k).classType != "LoadImage" && NodeAt(input, k).classType != "SaveImage"
  {
  }
}
