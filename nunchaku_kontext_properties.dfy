/**
 * Where api-workflows/nunchaku_kontext.ts puts the request's fields. `NodeAt(input, k)` is
 * node `k` of `Generate(input)` (`NunchakuKontext.GenerateAt`).
 */
module NunchakuKontextProperties {
  import opened ComfyGraph
  import opened NunchakuKontextRequest
  import opened NunchakuKontext

  /**
   * `cfg_scale` is the `guidance` of FluxGuidance "35" and changes nothing else; the sampler's
   * `cfg` stays the literal 1.
   */
  lemma CfgScaleIsGuidance(input: Request, cfgScale: real)
    ensures var n := NodeAt(input, 35);
      && n.classType == "FluxGuidance"
      && NodeAt(input.(cfg_scale := cfgScale), 35) == n.(inputs := n.inputs["guidance" := R(cfgScale)])
    ensures forall k | k != 35 :: NodeAt(input.(cfg_scale := cfgScale), k) == NodeAt(input, k)
    ensures Node31(input).inputs["cfg"] == N(1)
  {
    var other := input.(cfg_scale := cfgScale);
    assert other.prompt == input.prompt;
  }

  /** `model_name` is the `model_path` of loader "189" and changes nothing else. */
  lemma ModelNameIsModelPath(input: Request, modelName: string)
    ensures var n := NodeAt(input, 189);
      && n.classType == "NunchakuFluxDiTLoader"
      && NodeAt(input.(model_name := modelName), 189) == n.(inputs := n.inputs["model_path" := S(modelName)])
    ensures forall k | k != 189 :: NodeAt(input.(model_name := modelName), k) == NodeAt(input, k)
  {
    var other := input.(model_name := modelName);
    assert other.prompt == input.prompt;
  }

  /** Every other input of loader "189" is a literal: two requests with one model name get one loader. */
  lemma LoaderDependsOnlyOnModelName(a: Request, b: Request)
    requires a.model_name == b.model_name
    ensures NodeAt(a, 189) == NodeAt(b, 189)
  {
  }

  /** The sampler "31" takes the request's seed as is, and its model from output 0 of loader "189". */
  lemma SamplerSeedAndModel(input: Request)
    ensures Node31(input).classType == "KSampler"
    ensures Node31(input).inputs["seed"] == N(input.seed)
    ensures Node31(input).inputs["model"] == Ref(189, 0)
  {
  }

  /** `clip_name_1`, `clip_name_2` and `vae_name` name the files that loaders "38" and "39" load. */
  lemma EncoderFiles(input: Request)
    ensures Node38(input).inputs["clip_name1"] == S(input.clip_name_1)
    ensures Node38(input).inputs["clip_name2"] == S(input.clip_name_2)
    ensures Node39(input).inputs["vae_name"] == S(input.vae_name)
  {
  }
}
