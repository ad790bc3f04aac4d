/**
 * Where api-workflows/flux_kontext_dev_basic.ts puts the request's fields. `NodeAt(input, k)`
 * is node `k` of `Generate(input)` (`FluxKontextDevBasic.GenerateAt`), so a statement about
 * every `NodeAt(input, k)` is one about the whole prompt.
 */
module FluxKontextDevBasicProperties {
  import opened ComfyGraph
  import opened FluxKontextDevBasicRequest
  import opened FluxKontextDevBasic

  /** The prompt text enters the graph as input "text" of encoder "6" and nowhere else. */
  lemma PromptOnlyAt6(input: Request, prompt: string)
    ensures var n := NodeAt(input, 6);
      NodeAt(input.(prompt := prompt), 6) == n.(inputs := n.inputs["text" := S(prompt)])
    ensures forall k | k != 6 :: NodeAt(input.(prompt := prompt), k) == NodeAt(input, k)
  {
    var other := input.(prompt := prompt);
    assert other.image == input.image;
  }

  /** The image name enters the graph as input "image" of loader "142" and nowhere else. */
  lemma ImageOnlyAt142(input: Request, image: string)
    ensures var n := NodeAt(input, 142);
      NodeAt(input.(image := image), 142) == n.(inputs := n.inputs["image" := S(image)])
    ensures forall k | k != 142 :: NodeAt(input.(image := image), k) == NodeAt(input, k)
  {
    var other := input.(image := image);
    assert other.prompt == input.prompt;
  }

  /**
   * `cfg_scale` is the `guidance` of FluxGuidance "35" and changes nothing else; in particular
   * the sampler's `cfg` stays the literal 1, and the sampler's positive conditioning is "35".
   */
  lemma CfgScaleIsGuidance(input: Request, cfgScale: real)
    ensures var n := NodeAt(input, 35);
      && n.classType == "FluxGuidance"
      && NodeAt(input.(cfg_scale := cfgScale), 35) == n.(inputs := n.inputs["guidance" := R(cfgScale)])
    ensures forall k | k != 35 :: NodeAt(input.(cfg_scale := cfgScale), k) == NodeAt(input, k)
    ensures Node31(input).inputs["cfg"] == N(1) && Node31(input).inputs["positive"] == Ref(35, 0)
  {
    var other := input.(cfg_scale := cfgScale);
    assert other.prompt == input.prompt;
  }

  /** The `checkpoint` names the diffusion model that UNETLoader "37" loads, which the sampler uses. */
  lemma CheckpointIsUnetName(input: Request)
    ensures Node37(input).classType == "UNETLoader"
    ensures Node37(input).inputs["unet_name"] == S(input.checkpoint)
    ensures Node31(input).inputs["model"] == Ref(37, 0)
  {
  }

  /** The text encoders and the VAE are fixed files: the same for every request. */
  lemma FixedEncoderFiles(a: Request, b: Request)
    ensures NodeAt(a, 38) == NodeAt(b, 38) && NodeAt(a, 39) == NodeAt(b, 39)
    ensures Node38(a).inputs["clip1_name"] == S("clip_l.safetensors")
    ensures Node38(a).inputs["clip2_name"] == S("t5xxl_fp8_e4m3fn_scaled.safetensors")
    ensures Node39(a).inputs["vae_name"] == S("ae.safetensors")
  {
  }
}
