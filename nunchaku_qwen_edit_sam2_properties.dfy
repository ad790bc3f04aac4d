/**
 * What the prompt of api-workflows/nunchaku_qwen_edit_sam2.ts promises: tags in the prompt
 * switch face restoration, background removal, upscaling and SAM2 masking on and off, one Seed
 * node feeds the sampler and the wildcards, the request's ten LoRAs sit in one LoRA stack, and
 * one flag picks the VAE loader and the decoder. `NodeAt(input, k)` is node `k` of
 * `Generate(input)` (`NunchakuQwenEditSam2.GenerateAt`).
 */
module NunchakuQwenEditSam2Properties {
  import opened ComfyGraph
  import opened NunchakuQwenEditSam2Request
  import opened NunchakuQwenEditSam2

  /** The image enters the prompt as input "image" of loader "78" and nowhere else. */
  lemma ImageOnlyAt78(input: Request, image: string)
    ensures var n := NodeAt(input, 78);
      NodeAt(input.(image := image), 78) == n.(inputs := n.inputs["image" := S(image)])
    ensures forall k | k != 78 :: NodeAt(input.(image := image), k) == NodeAt(input, k)
  {
    var other := input.(image := image);
    assert other.prompt == input.prompt;
  }

  /** `image_2` and `image_3` reach no node. */
  lemma ExtraImagesReachNoNode(input: Request, image2: string, image3: string)
    ensures forall k :: NodeAt(input.(image_2 := image2, image_3 := image3), k) == NodeAt(input, k)
  {
    var other := input.(image_2 := image2, image_3 := image3);
    assert other.image == input.image;
  }

  /** `image_2` and `image_3` are accepted but the prompt does not depend on them. */
  lemma ExtraImagesUnused(input: Request, image2: string, image3: string)
    ensures Generate(input.(image_2 := image2, image_3 := image3)) == Generate(input)
  {
    ExtraImagesReachNoNode(input, image2, image3);
  }

  /** The prompt is the text of node "177" and appears nowhere else. */
  lemma PromptOnlyAt177(input: Request, prompt: string)
    ensures var n := NodeAt(input, 177);
      NodeAt(input.(prompt := prompt), 177) == n.(inputs := n.inputs["text" := S(prompt)])
    ensures forall k | k != 177 :: NodeAt(input.(prompt := prompt), k) == NodeAt(input, k)
  {
    var other := input.(prompt := prompt);
    assert other.image == input.image;
  }

  /** The seed is the value of Seed node "274" and appears nowhere else. */
  lemma SeedOnlyAt274(input: Request, seed: real)
    ensures var n := NodeAt(input, 274);
      && n.classType == "Seed"
      && NodeAt(input.(seed := seed), 274) == n.(inputs := n.inputs["seed" := R(seed)])
    ensures forall k | k != 274 :: NodeAt(input.(seed := seed), k) == NodeAt(input, k)
  {
    var other := input.(seed := seed);
    assert other.prompt == input.prompt;
  }

  /** The sampler "118" and the wildcard expansion "282" both read output 3 of the Seed node "274". */
  lemma SeedReadFrom274(input: Request)
    ensures Node118(input).inputs["seed"] == Ref(274, 3)
    ensures Node282(input).inputs["seed"] == Ref(274, 3)
  {
  }

  /**
   * The tag tests "191", "192", "219" and "324" look for `<restoreface>`, `<rmbg>`, `<upscale>`
   * and `<sam>` in the text "183" (the prompt before its tags are stripped).
   */
  lemma TagTests(input: Request)
    ensures Node191(input).inputs["sub_text"] == S("<restoreface>") && Node191(input).inputs["text"] == Ref(183, 0)
    ensures Node192(input).inputs["sub_text"] == S("<rmbg>") && Node192(input).inputs["text"] == Ref(183, 0)
    ensures Node219(input).inputs["sub_text"] == S("<upscale>") && Node219(input).inputs["text"] == Ref(183, 0)
    ensures Node324(input).inputs["sub_text"] == S("<sam>") && Node324(input).inputs["text"] == Ref(183, 0)
  {
  }

  /** All four tag tests ignore case. */
  lemma TagTestsIgnoreCase(input: Request)
    ensures Node191(input).inputs["case_insensitive"] == B(true)
    ensures Node192(input).inputs["case_insensitive"] == B(true)
    ensures Node219(input).inputs["case_insensitive"] == B(true)
    ensures Node324(input).inputs["case_insensitive"] == B(true)
  {
  }

  /**
   * With `<sam>` the branch "325" yields the overlay "336" of the SAM2 mask on the image "254",
   * otherwise "254" itself; background removal and the encoder then work on "325".
   */
  lemma SamBranch(input: Request)
    ensures Node325(input).inputs["cond"] == Ref(324, 0)
    ensures Node325(input).inputs["tt_value"] == Ref(336, 0) && Node336(input).inputs["image"] == Ref(254, 0)
    ensures Node325(input).inputs["ff_value"] == Ref(254, 0)
    ensures Node252(input).inputs["ff_value"] == Ref(325, 0) && Node128(input).inputs["image1"] == Ref(252, 0)
  {
  }

  /**
   * The overlay's mask "341" combines the SAM2 mask of "327" with its repaired version "340";
   * "327" segments the image "254" with the request's `sam_prompt`.
   */
  lemma SamMask(input: Request)
    ensures Node336(input).inputs["mask"] == Ref(341, 0)
    ensures Node341(input).inputs["mask_1"] == Ref(327, 1) && Node341(input).inputs["mask_2"] == Ref(340, 0)
    ensures Node340(input).inputs["mask"] == Ref(327, 1)
    ensures Node327(input).inputs["prompt"] == S(input.sam_prompt) && Node327(input).inputs["image"] == Ref(254, 0)
  {
  }

  /**
   * `use_vae_utils_loader` is the flag "319" that picks the VAE ("285" when set, "304"
   * otherwise) and the image ("320", the tiled decode "286" scaled down, when set; the plain
   * decode "312" otherwise).
   */
  lemma VaeChoice(input: Request)
    ensures Node319(input).inputs["value"] == B(input.use_vae_utils_loader)
    ensures Node303(input).inputs["cond"] == Ref(319, 0)
    ensures Node303(input).inputs["tt_value"] == Ref(285, 0) && Node303(input).inputs["ff_value"] == Ref(304, 0)
    ensures Node318(input).inputs["cond"] == Ref(319, 0)
    ensures Node318(input).inputs["tt_value"] == Ref(320, 0) && Node318(input).inputs["ff_value"] == Ref(312, 0)
  {
  }

  /** The scaler "320" shrinks the tiled decode "286" by `output_downscale`. */
  lemma OutputDownscale(input: Request)
    ensures Node320(input).inputs["scale_by"] == R(input.output_downscale)
    ensures Node320(input).inputs["image"] == Ref(286, 0)
  {
  }

  /**
   * The output, SaveImage "120", saves the branch "247": with `<restoreface>` the face-restored
   * image "167", otherwise the decoded image "318"; the restorer works on "318" too.
   */
  lemma RestoreFaceBranch(input: Request)
    ensures Node120(input).classType == "SaveImage" && Node120(input).inputs["images"] == Ref(247, 0)
    ensures Node247(input).inputs["cond"] == Ref(191, 0)
    ensures Node247(input).inputs["tt_value"] == Ref(167, 0) && Node167(input).inputs["image"] == Ref(318, 0)
    ensures Node247(input).inputs["ff_value"] == Ref(318, 0)
  {
  }

  /**
   * The LoRA stack "321" has ten slots, takes the request's offload setting and the model of
   * the loader "37", and the sampler's model chain starts from it.
   */
  lemma LoraStackLinks(input: Request)
    ensures Node321(input).inputs["lora_count"] == N(10)
    ensures Node321(input).inputs["cpu_offload"] == S(input.lora_cpu_offload)
    ensures Node321(input).inputs["model"] == Ref(37, 0) && Node66(input).inputs["model"] == Ref(321, 0)
  {
  }

  /**
   * The ten slots of the LoRA stack "321" hold the request's ten LoRAs, and the stack has no
   * other inputs besides its slot count, its offload setting and its model link.
   */
  lemma LoraStack(input: Request)
    ensures Node321(input).inputs - {"lora_count", "cpu_offload", "model"} == map[
      "lora_name_1" := S(input.lora_1_name), "lora_strength_1" := R(input.lora_1_strength),
      "lora_name_2" := S(input.lora_2_name), "lora_strength_2" := R(input.lora_2_strength),
      "lora_name_3" := S(input.lora_3_name), "lora_strength_3" := R(input.lora_3_strength),
      "lora_name_4" := S(input.lora_4_name), "lora_strength_4" := R(input.lora_4_strength),
      "lora_name_5" := S(input.lora_5_name), "lora_strength_5" := R(input.lora_5_strength),
      "lora_name_6" := S(input.lora_6_name), "lora_strength_6" := R(input.lora_6_strength),
      "lora_name_7" := S(input.lora_7_name), "lora_strength_7" := R(input.lora_7_strength),
      "lora_name_8" := S(input.lora_8_name), "lora_strength_8" := R(input.lora_8_strength),
      "lora_name_9" := S(input.lora_9_name), "lora_strength_9" := R(input.lora_9_strength),
      "lora_name_10" := S(input.lora_10_name), "lora_strength_10" := R(input.lora_10_strength)]
  {
  }

  /** Loader "78" is the only node that loads an image. */
  lemma OneImageLoader(input: Request)
    ensures NodesOfClass(Generate(input), "LoadImage") == {78}
  {
    forall k | k in Generate(input)
      ensures Generate(input)[k].classType == "LoadImage" <==> k == 78
    {
      GenerateAt(input, k);
      LoaderAndOutputClasses(input, k);
    }
  }

  /** "120" is the only SaveImage node: the prompt has one output. */
  lemma OneOutput(input: Request)
    ensures NodesOfClass(Generate(input), "SaveImage") == {120}
  {
    forall k | k in Generate(input)
      ensures Generate(input)[k].classType == "SaveImage" <==> k == 120
    {
      GenerateAt(input, k);
      LoaderAndOutputClasses(input, k);
    }
  }

  /** Of all the nodes, only "78" is a LoadImage and only "120" a SaveImage; split by key range to keep each proof small. */
  lemma LoaderAndOutputClasses(input: Request, k: NodeId)
    requires k in Keys
    ensures NodeAt(input, k).classType == "LoadImage" <==> k == 78
    ensures NodeAt(input, k).classType == "SaveImage" <==> k == 120
  {
    if k < 129 {
      LoaderAndOutputBelow129(input, k);
    } else if k < 184 {
      NoLoaderOrOutputFrom129(input, k);
    } else if k < 254 {
      NoLoaderOrOutputFrom184(input, k);
    } else if k < 303 {
      NoLoaderOrOutputFrom254(input, k);
    } else if k < 324 {
      NoLoaderOrOutputFrom303(input, k);
    } else {
      NoLoaderOrOutputFrom324(input, k);
    }
  }

  lemma LoaderAndOutputBelow129(input: Request, k: NodeId)
    requires k in Keys && k < 129
    ensures NodeAt(input, k).classType == "LoadImage" <==> k == 78
    ensures NodeAt(input, k).classType == "SaveImage" <==> k == 120
  {
  }

  lemma NoLoaderOrOutputFrom129(input: Request, k: NodeId)
    requires k in Keys && 129 <= k < 184
    ensures NodeAt(input, k).classType != "LoadImage" && NodeAt(input, k).classType != "SaveImage"
  {
  }

  lemma NoLoaderOrOutputFrom184(input: Request, k: NodeId)
    requires k in Keys && 184 <= k < 254
    ensures NodeAt(input, k).classType != "LoadImage" && NodeAt(input, k).classType != "SaveImage"
  {
  }

  lemma NoLoaderOrOutputFrom254(input: Request, k: NodeId)
    requires k in Keys && 254 <= k < 303
    ensures NodeAt(input, k).classType != "LoadImage" && NodeAt(input, k).classType != "SaveImage"
  {
  }

  lemma NoLoaderOrOutputFrom303(input: Request, k: NodeId)
    requires k in Keys && 303 <= k < 324
    ensures NodeAt(input, k).classType != "LoadImage" && NodeAt(input, k).classType != "SaveImage"
  {
  }

  lemma NoLoaderOrOutputFrom324(input: Request, k: NodeId)
    requires k in Keys && 324 <= k
    ensures NodeAt(input, k).classType != "LoadImage" && NodeAt(input, k).classType != "SaveImage"
  {
  }
}
