/**
 * What the prompt of api-workflows/qwen_edit_conditions.ts promises: tags in the prompt switch
 * face restoration, background removal and upscaling on and off, the prompt's text reaches the
 * encoder with its tags stripped, and the request's ten LoRAs sit in one TooManyLoras node.
 * `NodeAt(input, k)` is node `k` of `Generate(input)` (`QwenEditConditions.GenerateAt`).
 */
module QwenEditConditionsProperties {
  import opened ComfyGraph
  import opened QwenEditConditionsRequest
  import opened QwenEditConditions

  /**
   * The tag tests "191", "192" and "219" look for `<restoreface>`, `<rmbg>` and `<upscale>`,
   * ignoring case, in the text "183" (the prompt before its tags are stripped).
   */
  lemma TagTests(input: Request)
    ensures Node191(input).inputs["sub_text"] == S("<restoreface>") && Node191(input).inputs["text"] == Ref(183, 0)
    ensures Node192(input).inputs["sub_text"] == S("<rmbg>") && Node192(input).inputs["text"] == Ref(183, 0)
    ensures Node219(input).inputs["sub_text"] == S("<upscale>") && Node219(input).inputs["text"] == Ref(183, 0)
    ensures Node191(input).inputs["case_insensitive"] == B(true)
    ensures Node192(input).inputs["case_insensitive"] == B(true)
    ensures Node219(input).inputs["case_insensitive"] == B(true)
  {
  }

  /**
   * Each tag test drives a choice ("211", "215", "220") that yields the integer 1 when the tag
   * is present and 2 when it is not.
   */
  lemma TagChoices(input: Request)
    ensures Node211(input).inputs["boolean"] == Ref(191, 0)
    ensures Node211(input).inputs["on_true"] == Ref(212, 0) && Node212(input).inputs["value"] == N(1)
    ensures Node211(input).inputs["on_false"] == Ref(213, 0) && Node213(input).inputs["value"] == N(2)
    ensures Node215(input).inputs["boolean"] == Ref(192, 0)
    ensures Node215(input).inputs["on_true"] == Ref(216, 0) && Node216(input).inputs["value"] == N(1)
    ensures Node215(input).inputs["on_false"] == Ref(217, 0) && Node217(input).inputs["value"] == N(2)
    ensures Node220(input).inputs["boolean"] == Ref(219, 0)
    ensures Node220(input).inputs["on_true"] == Ref(221, 0) && Node221(input).inputs["value"] == N(1)
    ensures Node220(input).inputs["on_false"] == Ref(222, 0) && Node222(input).inputs["value"] == N(2)
  {
  }

  /**
   * The output, SaveImage "120", saves the switch "205", which the `<restoreface>` choice drives: input 1 is the
   * face-restored decode "167", input 2 the plain decode "119".
   */
  lemma RestoreFaceSwitch(input: Request)
    ensures Node120(input).classType == "SaveImage" && Node120(input).inputs["images"] == Ref(205, 0)
    ensures Node205(input).inputs["select"] == Ref(211, 0)
    ensures Node205(input).inputs["input1"] == Ref(167, 0) && Node167(input).inputs["image"] == Ref(119, 0)
    ensures Node205(input).inputs["input2"] == Ref(119, 0) && Node119(input).inputs["samples"] == Ref(118, 0)
  {
  }

  /**
   * The `<rmbg>` choice drives the switch "218" that the encoder and the latent both see:
   * input 1 is the cut-out composite "152", input 2 the image "223" before background removal.
   */
  lemma RmbgSwitch(input: Request)
    ensures Node218(input).inputs["select"] == Ref(215, 0)
    ensures Node218(input).inputs["images1"] == Ref(152, 0) && Node152(input).inputs["source"] == Ref(123, 0)
    ensures Node218(input).inputs["images2_opt"] == Ref(223, 0) && Node123(input).inputs["image"] == Ref(223, 0)
    ensures Node128(input).inputs["image1"] == Ref(218, 0) && Node88(input).inputs["pixels"] == Ref(218, 0)
  {
  }

  /**
   * The `<upscale>` choice drives the switch "223": input 1 is the model-upscaled image scaled
   * back to the requested size ("226"), input 2 the plainly scaled image "93".
   */
  lemma UpscaleSwitch(input: Request)
    ensures Node223(input).inputs["select"] == Ref(220, 0)
    ensures Node223(input).inputs["images1"] == Ref(226, 0) && Node226(input).inputs["image"] == Ref(154, 0)
    ensures Node223(input).inputs["images2_opt"] == Ref(93, 0) && Node93(input).inputs["image"] == Ref(78, 0)
  {
  }

  /**
   * The upscaler "154" gets the loaded image as is when its pixel count (width times height,
   * "228") is at most `megapixels` million ("238"), and the scaled image "93" otherwise.
   */
  lemma UpscalerInputBySize(input: Request)
    ensures Node154(input).inputs["image"] == Ref(233, 0)
    ensures Node233(input).inputs["select"] == Ref(234, 0)
    ensures Node233(input).inputs["images1"] == Ref(78, 0) && Node233(input).inputs["images2_opt"] == Ref(93, 0)
    ensures Node234(input).inputs["boolean"] == Ref(231, 0)
    ensures Node234(input).inputs["on_true"] == Ref(235, 0) && Node235(input).inputs["value"] == N(1)
    ensures Node234(input).inputs["on_false"] == Ref(236, 0) && Node236(input).inputs["value"] == N(2)
  {
  }

  /** The size test "231" compares `a <= b` with a the pixel count "228" and b the megapixels times 1000000 ("238"). */
  lemma SizeTest(input: Request)
    ensures Node231(input).inputs["comparison"] == S("a <= b")
    ensures Node231(input).inputs["a"] == Ref(228, 0) && Node231(input).inputs["b"] == Ref(238, 0)
    ensures Node228(input).inputs["operation"] == S("multiply")
    ensures Node228(input).inputs["a"] == Ref(227, 0) && Node228(input).inputs["b"] == Ref(227, 1)
    ensures Node238(input).inputs["a"] == Ref(230, 0) && Node238(input).inputs["b"] == N(1000000)
    ensures Node238(input).inputs["operation"] == S("multiply")
  {
  }

  /** `megapixels` is the value of node "230" and appears nowhere else. */
  lemma MegapixelsOnlyAt230(input: Request, megapixels: real)
    ensures var n := NodeAt(input, 230);
      NodeAt(input.(megapixels := megapixels), 230) == n.(inputs := n.inputs["value" := R(megapixels)])
    ensures forall k | k != 230 :: NodeAt(input.(megapixels := megapixels), k) == NodeAt(input, k)
  {
    var other := input.(megapixels := megapixels);
    assert other.prompt == input.prompt;
  }

  /** The prompt is the text of node "177" and appears nowhere else. */
  lemma PromptOnlyAt177(input: Request, prompt: string)
    ensures var n := NodeAt(input, 177);
      NodeAt(input.(prompt := prompt), 177) == n.(inputs := n.inputs["text" := S(prompt)])
    ensures forall k | k != 177 :: NodeAt(input.(prompt := prompt), k) == NodeAt(input, k)
  {
    var other := input.(prompt := prompt);
    assert other.image == input.image;
  }

  /** The prompt is split on `|` ("168") and its newlines are removed ("183"). */
  lemma PromptCleaned(input: Request)
    ensures Node168(input).inputs["text"] == Ref(177, 0) && Node168(input).inputs["delimiter"] == S("|")
    ensures Node183(input).inputs["string"] == Ref(168, 0)
  {
  }

  /** The encoder "128" reads the cleaned prompt "183" after the tag removal "184". */
  lemma EncoderReadsUntagged(input: Request)
    ensures Node184(input).inputs["string"] == Ref(183, 0)
    ensures Node128(input).inputs["prompt"] == Ref(184, 0)
  {
  }

  /** The one sampler "118" samples with the request's seed. */
  lemma SamplerSeed(input: Request)
    ensures Node118(input).classType == "KSampler" && Node118(input).inputs["seed"] == N(input.seed)
  {
  }

  /** The seed is an input of the sampler "118" and of no other node. */
  lemma SeedOnlyAt118(input: Request, seed: int)
    ensures var n := NodeAt(input, 118);
      NodeAt(input.(seed := seed), 118) == n.(inputs := n.inputs["seed" := N(seed)])
    ensures forall k | k != 118 :: NodeAt(input.(seed := seed), k) == NodeAt(input, k)
  {
    var other := input.(seed := seed);
    assert other.prompt == input.prompt;
  }

  /**
   * TooManyLoras "117" holds the request's ten LoRAs in slots 01 to 10 and nothing else
   * besides its links to the loaders "37" and "38".
   */
  lemma LoraSlots(input: Request)
    ensures Node117(input).inputs["model"] == Ref(37, 0) && Node117(input).inputs["clip"] == Ref(38, 0)
    ensures Node117(input).inputs - {"model", "clip"} == map[
      "lora_01" := S(input.lora_1_name), "strength_01" := R(input.lora_1_strength),
      "lora_02" := S(input.lora_2_name), "strength_02" := R(input.lora_2_strength),
      "lora_03" := S(input.lora_3_name), "strength_03" := R(input.lora_3_strength),
      "lora_04" := S(input.lora_4_name), "strength_04" := R(input.lora_4_strength),
      "lora_05" := S(input.lora_5_name), "strength_05" := R(input.lora_5_strength),
      "lora_06" := S(input.lora_6_name), "strength_06" := R(input.lora_6_strength),
      "lora_07" := S(input.lora_7_name), "strength_07" := R(input.lora_7_strength),
      "lora_08" := S(input.lora_8_name), "strength_08" := R(input.lora_8_strength),
      "lora_09" := S(input.lora_9_name), "strength_09" := R(input.lora_9_strength),
      "lora_10" := S(input.lora_10_name), "strength_10" := R(input.lora_10_strength)]
  {
  }

  /** The sampler's model comes from the LoRA node through "66" and "75"; the encoder's text encoder is its output 1. */
  lemma LoraOutputsUsed(input: Request)
    ensures Node118(input).inputs["model"] == Ref(75, 0) && Node75(input).inputs["model"] == Ref(66, 0)
    ensures Node66(input).inputs["model"] == Ref(117, 0)
    ensures Node128(input).inputs["clip"] == Ref(117, 1)
  {
  }

  /** Loader "78" is the only node that loads an image. */
  lemma OneImageLoader(input: Request)
    ensures NodesOfClass(Generate(input), "LoadImage") == {78}
  {
    forall k | k in Generate(input)
      ensures Generate(input)[k].classType == "LoadImage" <==> k == 78
    {
      GenerateAt(input, k);
      LoaderAndOutputClasses(input, k);
    }
  }

  /** "120" is the only SaveImage node: the prompt has one output. */
  lemma OneOutput(input: Request)
    ensures NodesOfClass(Generate(input), "SaveImage") == {120}
  {
    forall k | k in Generate(input)
      ensures Generate(input)[k].classType == "SaveImage" <==> k == 120
    {
      GenerateAt(input, k);
      LoaderAndOutputClasses(input, k);
    }
  }

  /** Of all the nodes, only "78" is a LoadImage and only "120" a SaveImage; split by key range to keep each proof small. */
  lemma LoaderAndOutputClasses(input: Request, k: NodeId)
    requires k in Keys
    ensures NodeAt(input, k).classType == "LoadImage" <==> k == 78
    ensures NodeAt(input, k).classType == "SaveImage" <==> k == 120
  {
    if k < 129 {
      LoaderAndOutputBelow129(input, k);
    } else if k < 184 {
      NoLoaderOrOutputFrom129(input, k);
    } else if k < 220 {
      NoLoaderOrOutputFrom184(input, k);
    } else if k < 228 {
      NoLoaderOrOutputFrom220(input, k);
    } else {
      NoLoaderOrOutputFrom228(input, k);
    }
  }

  lemma LoaderAndOutputBelow129(input: Request, k: NodeId)
    requires k in Keys && k < 129
    ensures NodeAt(input, k).classType == "LoadImage" <==> k == 78
    ensures NodeAt(input, k).classType == "SaveImage" <==> k == 120
  {
  }

  lemma NoLoaderOrOutputFrom129(input: Request, k: NodeId)
    requires k in Keys && 129 <= k < 184
    ensures NodeAt(input, k).classType != "LoadImage" && NodeAt(input, k).classType != "SaveImage"
  {
  }

  lemma NoLoaderOrOutputFrom184(input: Request, k: NodeId)
    requires k in Keys && 184 <= k < 220
    ensures NodeAt(input, k).classType != "LoadImage" && NodeAt(input, k).classType != "SaveImage"
  {
  }

  lemma NoLoaderOrOutputFrom220(input: Request, k: NodeId)
    requires k in Keys && 220 <= k < 228
    ensures NodeAt(input, k).classType != "LoadImage" && NodeAt(input, k).classType != "SaveImage"
  {
  }

  lemma NoLoaderOrOutputFrom228(input: Request, k: NodeId)
    requires k in Keys && 228 <= k
    ensures NodeAt(input, k).classType != "LoadImage" && NodeAt(input, k).classType != "SaveImage"
  {
  }
}
