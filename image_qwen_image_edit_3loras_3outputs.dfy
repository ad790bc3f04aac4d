/** `RequestSchema` of api-workflows/image_qwen_image_edit_3loras_3outputs.ts: the request fields, their bounds and defaults. */
module ImageQwenImageEdit3Loras3OutputsRequest {
  import opened Wrappers
  import opened JsonValue
  import opened Zod

  /** A request as `RequestSchema` (lines 6-103) returns it, every default filled in. */
  datatype Request = Request(
    image: string,
    prompt: string,
    negative_prompt: string,
    seed: int,
    steps: int,
    cfg_scale: real,
    sampler_name: string,
    scheduler: string,
    denoise: real,
    megapixels: real,
    aura_flow_shift: int,
    cfg_norm_strength: real,
    unet_name: string,
    clip_name: string,
    vae_name: string,
    lora_1_name: string,
    lora_1_strength: real,
    lora_2_name: string,
    lora_2_strength: real,
    lora_3_name: string,
    lora_3_strength: real)

  /** The bounds and enum memberships that `RequestSchema` checks. */
  predicate Valid(input: Request, config: Config) {
    && 1 <= input.steps <= 100
    && 0.0 <= input.cfg_scale <= 20.0
    && input.sampler_name in config.samplers
    && input.scheduler in config.schedulers
    && 0.0 <= input.denoise <= 1.0
    && 0.1 <= input.megapixels <= 4.0
    && 0.0 <= input.cfg_norm_strength <= 1.0
    && input.unet_name in config.unets
    && input.clip_name in config.clips
    && input.vae_name in config.vaes
  }

  // The string defaults that `RequestSchema` declares with `.default(...)`.
  const NegativePromptDefault := "blurry, ugly"
  const SamplerNameDefault := "euler"
  const SchedulerDefault := "simple"
  const UnetNameDefault := "qwen_image_edit_fp8_e4m3fn.safetensors"
  const ClipNameDefault := "qwen_2.5_vl_7b_fp8_scaled.safetensors"
  const VaeNameDefault := "qwen_image_vae.safetensors"
  const Lora1NameDefault := "Qwen-Image-Lightning-4steps-V1.0.safetensors"
  const Lora2NameDefault := "extractOutfitV3.xWyV.safetensors"
  const Lora3NameDefault := "qwenRealNud3s.r69Z.safetensors"

  /**
   * `RequestSchema.parse(raw)`, or `None` where zod throws. `drawnSeed` stands for the
   * random default of `seed`.
   */
  function Parse(raw: map<string, Json>, config: Config, drawnSeed: int): Option<Request>
  {
    var image := ReadString(raw, "image", None);
    var prompt := ReadString(raw, "prompt", None);
    var negative_prompt := ReadString(raw, "negative_prompt", Some(NegativePromptDefault));
    var seed := ReadInt(raw, "seed", Some(drawnSeed), None, None);
    var steps := ReadInt(raw, "steps", Some(4), Some(1), Some(100));
    var cfg_scale := ReadNumber(raw, "cfg_scale", Some(1.0), Some(0.0), Some(20.0));
    var sampler_name := ReadEnum(raw, "sampler_name", config.samplers, Some(SamplerNameDefault));
    var scheduler := ReadEnum(raw, "scheduler", config.schedulers, Some(SchedulerDefault));
    var denoise := ReadNumber(raw, "denoise", Some(1.0), Some(0.0), Some(1.0));
    var megapixels := ReadNumber(raw, "megapixels", Some(1.0), Some(0.1), Some(4.0));
    var aura_flow_shift := ReadInt(raw, "aura_flow_shift", Some(3), None, None);
    var cfg_norm_strength := ReadNumber(raw, "cfg_norm_strength", Some(0.79), Some(0.0), Some(1.0));
    var unet_name := ReadEnum(raw, "unet_name", config.unets, Some(UnetNameDefault));
    var clip_name := ReadEnum(raw, "clip_name", config.clips, Some(ClipNameDefault));
    var vae_name := ReadEnum(raw, "vae_name", config.vaes, Some(VaeNameDefault));
    var lora_1_name := ReadString(raw, "lora_1_name", Some(Lora1NameDefault));
    var lora_1_strength := ReadNumber(raw, "lora_1_strength", Some(1.0), None, None);
    var lora_2_name := ReadString(raw, "lora_2_name", Some(Lora2NameDefault));
    var lora_2_strength := ReadNumber(raw, "lora_2_strength", Some(1.0), None, None);
    var lora_3_name := ReadString(raw, "lora_3_name", Some(Lora3NameDefault));
    var lora_3_strength := ReadNumber(raw, "lora_3_strength", Some(1.0), None, None);
    if image.Some?
      && prompt.Some?
      && negative_prompt.Some?
      && seed.Some?
      && steps.Some?
      && cfg_scale.Some?
      && sampler_name.Some?
      && scheduler.Some?
      && denoise.Some?
      && megapixels.Some?
      && aura_flow_shift.Some?
      && cfg_norm_strength.Some?
      && unet_name.Some?
      && clip_name.Some?
      && vae_name.Some?
      && lora_1_name.Some?
      && lora_1_strength.Some?
      && lora_2_name.Some?
      && lora_2_strength.Some?
      && lora_3_name.Some?
      && lora_3_strength.Some? then
      Some(Request(
        image.value,
        prompt.value,
        negative_prompt.value,
        seed.value,
        steps.value,
        cfg_scale.value,
        sampler_name.value,
        scheduler.value,
        denoise.value,
        megapixels.value,
        aura_flow_shift.value,
        cfg_norm_strength.value,
        unet_name.value,
        clip_name.value,
        vae_name.value,
        lora_1_name.value,
        lora_1_strength.value,
        lora_2_name.value,
        lora_2_strength.value,
        lora_3_name.value,
        lora_3_strength.value))
    else
      None
  }

  /** Whatever `RequestSchema` accepts satisfies its bounds and enum memberships. */
  lemma ParsedIsValid(raw: map<string, Json>, config: Config, drawnSeed: int)
    ensures var r := Parse(raw, config, drawnSeed); r.Some? ==> Valid(r.value, config)
  {
  }

  /**
   * An accepted request carries the value the caller sent under every declared key, and the
   * declared default under every key the caller left out.
   */
  lemma ParsedFields(raw: map<string, Json>, config: Config, drawnSeed: int)
    ensures var r := Parse(raw, config, drawnSeed); r.Some? ==>
      && StringFrom(raw, "image", None, r.value.image)
      && StringFrom(raw, "prompt", None, r.value.prompt)
      && StringFrom(raw, "negative_prompt", Some(NegativePromptDefault), r.value.negative_prompt)
      && IntFrom(raw, "seed", Some(drawnSeed), r.value.seed)
      && IntFrom(raw, "steps", Some(4), r.value.steps)
      && NumberFrom(raw, "cfg_scale", Some(1.0), r.value.cfg_scale)
      && StringFrom(raw, "sampler_name", Some(SamplerNameDefault), r.value.sampler_name)
      && StringFrom(raw, "scheduler", Some(SchedulerDefault), r.value.scheduler)
      && NumberFrom(raw, "denoise", Some(1.0), r.value.denoise)
      && NumberFrom(raw, "megapixels", Some(1.0), r.value.megapixels)
      && IntFrom(raw, "aura_flow_shift", Some(3), r.value.aura_flow_shift)
      && NumberFrom(raw, "cfg_norm_strength", Some(0.79), r.value.cfg_norm_strength)
      && StringFrom(raw, "unet_name", Some(UnetNameDefault), r.value.unet_name)
      && StringFrom(raw, "clip_name", Some(ClipNameDefault), r.value.clip_name)
      && StringFrom(raw, "vae_name", Some(VaeNameDefault), r.value.vae_name)
      && StringFrom(raw, "lora_1_name", Some(Lora1NameDefault), r.value.lora_1_name)
      && NumberFrom(raw, "lora_1_strength", Some(1.0), r.value.lora_1_strength)
      && StringFrom(raw, "lora_2_name", Some(Lora2NameDefault), r.value.lora_2_name)
      && NumberFrom(raw, "lora_2_strength", Some(1.0), r.value.lora_2_strength)
      && StringFrom(raw, "lora_3_name", Some(Lora3NameDefault), r.value.lora_3_name)
      && NumberFrom(raw, "lora_3_strength", Some(1.0), r.value.lora_3_strength)
  {
    ReadStringSpec(raw, "image", None);
    ReadStringSpec(raw, "prompt", None);
    ReadStringSpec(raw, "negative_prompt", Some(NegativePromptDefault));
    ReadIntSpec(raw, "seed", Some(drawnSeed), None, None);
    ReadIntSpec(raw, "steps", Some(4), Some(1), Some(100));
    ReadNumberSpec(raw, "cfg_scale", Some(1.0), Some(0.0), Some(20.0));
    ReadEnumSpec(raw, "sampler_name", config.samplers, Some(SamplerNameDefault));
    ReadEnumSpec(raw, "scheduler", config.schedulers, Some(SchedulerDefault));
    ReadNumberSpec(raw, "denoise", Some(1.0), Some(0.0), Some(1.0));
    ReadNumberSpec(raw, "megapixels", Some(1.0), Some(0.1), Some(4.0));
    ReadIntSpec(raw, "aura_flow_shift", Some(3), None, None);
    ReadNumberSpec(raw, "cfg_norm_strength", Some(0.79), Some(0.0), Some(1.0));
    ReadEnumSpec(raw, "unet_name", config.unets, Some(UnetNameDefault));
    ReadEnumSpec(raw, "clip_name", config.clips, Some(ClipNameDefault));
    ReadEnumSpec(raw, "vae_name", config.vaes, Some(VaeNameDefault));
    ReadStringSpec(raw, "lora_1_name", Some(Lora1NameDefault));
    ReadNumberSpec(raw, "lora_1_strength", Some(1.0), None, None);
    ReadStringSpec(raw, "lora_2_name", Some(Lora2NameDefault));
    ReadNumberSpec(raw, "lora_2_strength", Some(1.0), None, None);
    ReadStringSpec(raw, "lora_3_name", Some(Lora3NameDefault));
    ReadNumberSpec(raw, "lora_3_strength", Some(1.0), None, None);
  }

  /** Every key `RequestSchema` declares passes its check; a key without a default must be present. */
  predicate KeysPass(raw: map<string, Json>, config: Config, drawnSeed: int) {
    && StringPasses(raw, "image", None)
    && StringPasses(raw, "prompt", None)
    && StringPasses(raw, "negative_prompt", Some(NegativePromptDefault))
    && IntPasses(raw, "seed", Some(drawnSeed), None, None)
    && IntPasses(raw, "steps", Some(4), Some(1), Some(100))
    && NumberPasses(raw, "cfg_scale", Some(1.0), Some(0.0), Some(20.0))
    && EnumPasses(raw, "sampler_name", config.samplers, Some(SamplerNameDefault))
    && EnumPasses(raw, "scheduler", config.schedulers, Some(SchedulerDefault))
    && NumberPasses(raw, "denoise", Some(1.0), Some(0.0), Some(1.0))
    && NumberPasses(raw, "megapixels", Some(1.0), Some(0.1), Some(4.0))
    && IntPasses(raw, "aura_flow_shift", Some(3), None, None)
    && NumberPasses(raw, "cfg_norm_strength", Some(0.79), Some(0.0), Some(1.0))
    && EnumPasses(raw, "unet_name", config.unets, Some(UnetNameDefault))
    && EnumPasses(raw, "clip_name", config.clips, Some(ClipNameDefault))
    && EnumPasses(raw, "vae_name", config.vaes, Some(VaeNameDefault))
    && StringPasses(raw, "lora_1_name", Some(Lora1NameDefault))
    && NumberPasses(raw, "lora_1_strength", Some(1.0), None, None)
    && StringPasses(raw, "lora_2_name", Some(Lora2NameDefault))
    && NumberPasses(raw, "lora_2_strength", Some(1.0), None, None)
    && StringPasses(raw, "lora_3_name", Some(Lora3NameDefault))
    && NumberPasses(raw, "lora_3_strength", Some(1.0), None, None)
  }

  /** A request `RequestSchema` accepts passes every key check. */
  lemma AcceptedKeysPass(raw: map<string, Json>, config: Config, drawnSeed: int)
    requires Parse(raw, config, drawnSeed).Some?
    ensures KeysPass(raw, config, drawnSeed)
  {
    ReadStringSpec(raw, "image", None);
    ReadStringSpec(raw, "prompt", None);
    ReadStringSpec(raw, "negative_prompt", Some(NegativePromptDefault));
    ReadIntSpec(raw, "seed", Some(drawnSeed), None, None);
    ReadIntSpec(raw, "steps", Some(4), Some(1), Some(100));
    ReadNumberSpec(raw, "cfg_scale", Some(1.0), Some(0.0), Some(20.0));
    ReadEnumSpec(raw, "sampler_name", config.samplers, Some(SamplerNameDefault));
    ReadEnumSpec(raw, "scheduler", config.schedulers, Some(SchedulerDefault));
    ReadNumberSpec(raw, "denoise", Some(1.0), Some(0.0), Some(1.0));
    ReadNumberSpec(raw, "megapixels", Some(1.0), Some(0.1), Some(4.0));
    ReadIntSpec(raw, "aura_flow_shift", Some(3), None, None);
    ReadNumberSpec(raw, "cfg_norm_strength", Some(0.79), Some(0.0), Some(1.0));
    ReadEnumSpec(raw, "unet_name", config.unets, Some(UnetNameDefault));
    ReadEnumSpec(raw, "clip_name", config.clips, Some(ClipNameDefault));
    ReadEnumSpec(raw, "vae_name", config.vaes, Some(VaeNameDefault));
    ReadStringSpec(raw, "lora_1_name", Some(Lora1NameDefault));
    ReadNumberSpec(raw, "lora_1_strength", Some(1.0), None, None);
    ReadStringSpec(raw, "lora_2_name", Some(Lora2NameDefault));
    ReadNumberSpec(raw, "lora_2_strength", Some(1.0), None, None);
    ReadStringSpec(raw, "lora_3_name", Some(Lora3NameDefault));
    ReadNumberSpec(raw, "lora_3_strength", Some(1.0), None, None);
  }

  /** A request that passes every key check is accepted. */
  lemma PassingKeysAccepted(raw: map<string, Json>, config: Config, drawnSeed: int)
    requires KeysPass(raw, config, drawnSeed)
    ensures Parse(raw, config, drawnSeed).Some?
  {
    ReadStringSpec(raw, "image", None);
    ReadStringSpec(raw, "prompt", None);
    ReadStringSpec(raw, "negative_prompt", Some(NegativePromptDefault));
    ReadIntSpec(raw, "seed", Some(drawnSeed), None, None);
    ReadIntSpec(raw, "steps", Some(4), Some(1), Some(100));
    ReadNumberSpec(raw, "cfg_scale", Some(1.0), Some(0.0), Some(20.0));
    ReadEnumSpec(raw, "sampler_name", config.samplers, Some(SamplerNameDefault));
    ReadEnumSpec(raw, "scheduler", config.schedulers, Some(SchedulerDefault));
    ReadNumberSpec(raw, "denoise", Some(1.0), Some(0.0), Some(1.0));
    ReadNumberSpec(raw, "megapixels", Some(1.0), Some(0.1), Some(4.0));
    ReadIntSpec(raw, "aura_flow_shift", Some(3), None, None);
    ReadNumberSpec(raw, "cfg_norm_strength", Some(0.79), Some(0.0), Some(1.0));
    ReadEnumSpec(raw, "unet_name", config.unets, Some(UnetNameDefault));
    ReadEnumSpec(raw, "clip_name", config.clips, Some(ClipNameDefault));
    ReadEnumSpec(raw, "vae_name", config.vaes, Some(VaeNameDefault));
    ReadStringSpec(raw, "lora_1_name", Some(Lora1NameDefault));
    ReadNumberSpec(raw, "lora_1_strength", Some(1.0), None, None);
    ReadStringSpec(raw, "lora_2_name", Some(Lora2NameDefault));
    ReadNumberSpec(raw, "lora_2_strength", Some(1.0), None, None);
    ReadStringSpec(raw, "lora_3_name", Some(Lora3NameDefault));
    ReadNumberSpec(raw, "lora_3_strength", Some(1.0), None, None);
  }

  /**
   * `RequestSchema` accepts a request exactly when every declared key passes its check: the
   * declared JSON type, the bounds, `.int()` and the enum, with a missing key taking its
   * default and a key without a default required.
   */
  lemma ParseAccepts(raw: map<string, Json>, config: Config, drawnSeed: int)
    ensures Parse(raw, config, drawnSeed).Some? <==> KeysPass(raw, config, drawnSeed)
  {
    if Parse(raw, config, drawnSeed).Some? {
      AcceptedKeysPass(raw, config, drawnSeed);
    }
    if KeysPass(raw, config, drawnSeed) {
      PassingKeysAccepted(raw, config, drawnSeed);
    }
  }

}

/** `generateWorkflow` of api-workflows/image_qwen_image_edit_3loras_3outputs.ts as a prompt graph. */
module ImageQwenImageEdit3Loras3Outputs {
  import opened Wrappers
  import opened ComfyGraph
  import opened ImageQwenImageEdit3Loras3OutputsRequest

  /** The keys of the prompt's nodes. */
  const Keys: set<NodeId> := {3, 8, 37, 38, 39, 60, 66, 75, 76, 77, 78, 88, 93, 101, 102, 103, 104, 105, 106, 107, 108, 109}

  /**
   * A topological rank: each node links only to nodes of lower rank. Written as a search
   * over the sorted keys, so that evaluating it at one key takes a few comparisons.
   */
  function Rank(k: NodeId): nat {
    if k < 88 then
      if k < 60 then
        if k < 37 then
          if k < 8 then
            6
          else
            7
        else
          0
      else
        if k < 76 then
          if k < 66 then
            8
          else
            if k < 75 then
              4
            else
              5
        else
          if k < 77 then
            2
          else
            if k < 78 then
              2
            else
              0
    else
      if k < 104 then
        if k < 101 then
          if k < 93 then
            2
          else
            1
        else
          if k < 102 then
            1
          else
            if k < 103 then
              2
            else
              6
      else
        if k < 107 then
          if k < 105 then
            7
          else
            if k < 106 then
              8
            else
              6
        else
          if k < 108 then
            7
          else
            if k < 109 then
              8
            else
              3
  }

  /** Node "3" (lines 109-126). */
  function Node3(input: Request): (n: Node)
    ensures LinksWithin(n, Keys) && LinksBelow(n, Rank(3), Rank)
    ensures Defined(n)
  {
    Node("KSampler", map[
      "seed" := N(input.seed),
      "steps" := N(input.steps),
      "cfg" := R(input.cfg_scale),
      "sampler_name" := S(input.sampler_name),
      "scheduler" := S(input.scheduler),
      "denoise" := R(input.denoise),
      "model" := Ref(75, 0),
      "positive" := Ref(76, 0),
      "negative" := Ref(77, 0),
      "latent_image" := Ref(88, 0)])
  }

  /** Node "8" (lines 127-136). */
  function Node8(input: Request): (n: Node)
    ensures LinksWithin(n, Keys) && LinksBelow(n, Rank(8), Rank)
    ensures Defined(n)
  {
    Node("VAEDecode", map[
      "samples" := Ref(3, 0),
      "vae" := Ref(39, 0)])
  }

  /** Node "37" (lines 137-146). */
  function Node37(input: Request): (n: Node)
    ensures LinksWithin(n, Keys) && LinksBelow(n, Rank(37), Rank)
    ensures Defined(n)
  {
    Node("UNETLoader", map[
      "unet_name" := S(input.unet_name),
      "weight_dtype" := S("default")])
  }

  /** Node "38" (lines 147-157). */
  function Node38(input: Request): (n: Node)
    ensures LinksWithin(n, Keys) && LinksBelow(n, Rank(38), Rank)
    ensures Defined(n)
  {
    Node("CLIPLoader", map[
      "clip_name" := S(input.clip_name),
      "type" := S("qwen_image"),
      "device" := S("default")])
  }

  /** Node "39" (lines 158-166). */
  function Node39(input: Request): (n: Node)
    ensures LinksWithin(n, Keys) && LinksBelow(n, Rank(39), Rank)
    ensures Defined(n)
  {
    Node("VAELoader", map[
      "vae_name" := S(input.vae_name)])
  }

  /** Node "60" (lines 167-176). */
  function Node60(input: Request): (n: Node)
    ensures LinksWithin(n, Keys) && LinksBelow(n, Rank(60), Rank)
    ensures Defined(n)
  {
    Node("SaveImage", map[
      "filename_prefix" := S("ComfyUI"),
      "images" := Ref(8, 0)])
  }

  /** Node "66" (lines 177-186). */
  function Node66(input: Request): (n: Node)
    ensures LinksWithin(n, Keys) && LinksBelow(n, Rank(66), Rank)
    ensures Defined(n)
  {
    Node("ModelSamplingAuraFlow", map[
      "shift" := N(input.aura_flow_shift),
      "model" := Ref(109, 0)])
  }

  /** Node "75" (lines 187-196). */
  function Node75(input: Request): (n: Node)
    ensures LinksWithin(n, Keys) && LinksBelow(n, Rank(75), Rank)
    ensures Defined(n)
  {
    Node("CFGNorm", map[
      "strength" := R(input.cfg_norm_strength),
      "model" := Ref(66, 0)])
  }

  /** Node "76" (lines 197-208). */
  function Node76(input: Request): (n: Node)
    ensures LinksWithin(n, Keys) && LinksBelow(n, Rank(76), Rank)
    ensures Defined(n)
  {
    Node("TextEncodeQwenImageEdit", map[
      "prompt" := S(input.prompt),
      "clip" := Ref(38, 0),
      "vae" := Ref(39, 0),
      "image" := Ref(93, 0)])
  }

  /** Node "77" (lines 209-220). */
  function Node77(input: Request): (n: Node)
    ensures LinksWithin(n, Keys) && LinksBelow(n, Rank(77), Rank)
    ensures Defined(n)
  {
    Node("TextEncodeQwenImageEdit", map[
      "prompt" := S(input.negative_prompt),
      "clip" := Ref(38, 0),
      "vae" := Ref(39, 0),
      "image" := Ref(93, 0)])
  }

  /** Node "78" (lines 221-230). */
  function Node78(input: Request): (n: Node)
    ensures LinksWithin(n, Keys) && LinksBelow(n, Rank(78), Rank)
    ensures Defined(n)
  {
    Node("LoadImage", map[
      "image" := S(input.image),
      "upload" := S("image")])
  }

  /** Node "88" (lines 231-240). */
  function Node88(input: Request): (n: Node)
    ensures LinksWithin(n, Keys) && LinksBelow(n, Rank(88), Rank)
    ensures Defined(n)
  {
    Node("VAEEncode", map[
      "pixels" := Ref(93, 0),
      "vae" := Ref(39, 0)])
  }

  /** Node "93" (lines 241-251). */
  function Node93(input: Request): (n: Node)
    ensures LinksWithin(n, Keys) && LinksBelow(n, Rank(93), Rank)
    ensures Defined(n)
  {
    Node("ImageScaleToTotalPixels", map[
      "upscale_method" := S("lanczos"),
      "megapixels" := R(input.megapixels),
      "image" := Ref(78, 0)])
  }

  /** Node "101" (lines 252-262). */
  function Node101(input: Request): (n: Node)
    ensures LinksWithin(n, Keys) && LinksBelow(n, Rank(101), Rank)
    ensures Defined(n)
  {
    Node("LoraLoaderModelOnly", map[
      "lora_name" := S(input.lora_1_name),
      "strength_model" := R(input.lora_1_strength),
      "model" := Ref(37, 0)])
  }

  /** Node "102" (lines 263-273). */
  function Node102(input: Request): (n: Node)
    ensures LinksWithin(n, Keys) && LinksBelow(n, Rank(102), Rank)
    ensures Defined(n)
  {
    Node("LoraLoaderModelOnly", map[
      "lora_name" := S(input.lora_2_name),
      "strength_model" := R(input.lora_2_strength),
      "model" := Ref(101, 0)])
  }

  /** Node "103" (lines 274-291). */
  function Node103(input: Request): (n: Node)
    ensures LinksWithin(n, Keys) && LinksBelow(n, Rank(103), Rank)
    ensures Defined(n)
  {
    Node("KSampler", map[
      "seed" := N(input.seed + 1),
      "steps" := N(input.steps),
      "cfg" := R(input.cfg_scale),
      "sampler_name" := S(input.sampler_name),
      "scheduler" := S(input.scheduler),
      "denoise" := R(input.denoise),
      "model" := Ref(75, 0),
      "positive" := Ref(76, 0),
      "negative" := Ref(77, 0),
      "latent_image" := Ref(88, 0)])
  }

  /** Node "104" (lines 292-301). */
  function Node104(input: Request): (n: Node)
    ensures LinksWithin(n, Keys) && LinksBelow(n, Rank(104), Rank)
    ensures Defined(n)
  {
    Node("VAEDecode", map[
      "samples" := Ref(103, 0),
      "vae" := Ref(39, 0)])
  }

  /** Node "105" (lines 302-311). */
  function Node105(input: Request): (n: Node)
    ensures LinksWithin(n, Keys) && LinksBelow(n, Rank(105), Rank)
    ensures Defined(n)
  {
    Node("SaveImage", map[
      "filename_prefix" := S("ComfyUI"),
      "images" := Ref(104, 0)])
  }

  /** Node "106" (lines 312-329). */
  function Node106(input: Request): (n: Node)
    ensures LinksWithin(n, Keys) && LinksBelow(n, Rank(106), Rank)
    ensures Defined(n)
  {
    Node("KSampler", map[
      "seed" := N(input.seed + 2),
      "steps" := N(input.steps),
      "cfg" := R(input.cfg_scale),
      "sampler_name" := S(input.sampler_name),
      "scheduler" := S(input.scheduler),
      "denoise" := R(input.denoise),
      "model" := Ref(75, 0),
      "positive" := Ref(76, 0),
      "negative" := Ref(77, 0),
      "latent_image" := Ref(88, 0)])
  }

  /** Node "107" (lines 330-339). */
  function Node107(input: Request): (n: Node)
    ensures LinksWithin(n, Keys) && LinksBelow(n, Rank(107), Rank)
    ensures Defined(n)
  {
    Node("VAEDecode", map[
      "samples" := Ref(106, 0),
      "vae" := Ref(39, 0)])
  }

  /** Node "108" (lines 340-349). */
  function Node108(input: Request): (n: Node)
    ensures LinksWithin(n, Keys) && LinksBelow(n, Rank(108), Rank)
    ensures Defined(n)
  {
    Node("SaveImage", map[
      "filename_prefix" := S("ComfyUI"),
      "images" := Ref(107, 0)])
  }

  /** Node "109" (lines 350-360). */
  function Node109(input: Request): (n: Node)
    ensures LinksWithin(n, Keys) && LinksBelow(n, Rank(109), Rank)
    ensures Defined(n)
  {
    Node("LoraLoaderModelOnly", map[
      "lora_name" := S(input.lora_3_name),
      "strength_model" := R(input.lora_3_strength),
      "model" := Ref(102, 0)])
  }

  /** The node under key `k`; keys outside `Keys` get an empty placeholder that `Generate` never uses. */
  function NodeAt(input: Request, k: NodeId): Node {
    match k
    case 3 => Node3(input)
    case 8 => Node8(input)
    case 37 => Node37(input)
    case 38 => Node38(input)
    case 39 => Node39(input)
    case 60 => Node60(input)
    case 66 => Node66(input)
    case 75 => Node75(input)
    case 76 => Node76(input)
    case 77 => Node77(input)
    case 78 => Node78(input)
    case 88 => Node88(input)
    case 93 => Node93(input)
    case 101 => Node101(input)
    case 102 => Node102(input)
    case 103 => Node103(input)
    case 104 => Node104(input)
    case 105 => Node105(input)
    case 106 => Node106(input)
    case 107 => Node107(input)
    case 108 => Node108(input)
    case 109 => Node109(input)
    case _ => Node("", map[])
  }

  /** `generateWorkflow(input)` (lines 107-362). */
  function Generate(input: Request): Graph
  {
    map k | k in Keys :: NodeAt(input, k)
  }

  /** The prompt has a node under exactly the keys of `Keys`, and `NodeAt(input, k)` is that node. */
  lemma GenerateAt(input: Request, k: NodeId)
    ensures k in Generate(input) <==> k in Keys
    ensures k in Keys ==> Generate(input)[k] == NodeAt(input, k)
  {
  }

  /** Each node links only to nodes of the prompt of lower rank, and reads no undefined value. */
  lemma NodeShape(input: Request, k: NodeId)
    requires k in Keys
    ensures LinksWithin(NodeAt(input, k), Keys) && LinksBelow(NodeAt(input, k), Rank(k), Rank)
    ensures Defined(NodeAt(input, k))
  {
  }

  /** `Rank` ranks the prompt, and no input of the prompt is undefined. */
  lemma WellFormed(input: Request)
    ensures RankedBy(Generate(input), Rank)
    ensures AllDefined(Generate(input))
  {
    forall k | k in Keys
      ensures LinksWithin(NodeAt(input, k), Keys) && LinksBelow(NodeAt(input, k), Rank(k), Rank)
      ensures Defined(NodeAt(input, k))
    {
      NodeShape(input, k);
    }
  }

  /** Every link of the prompt names one of its nodes, and no chain of links is circular. */
  lemma ClosedAndAcyclic(input: Request)
    ensures Closed(Generate(input)) && Acyclic(Generate(input))
  {
    WellFormed(input);
    RankedIsClosedAndAcyclic(Generate(input), Rank);
  }
}
