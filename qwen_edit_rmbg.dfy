/** `RequestSchema` of api-workflows/qwen_edit_rmbg.ts: the request fields, their bounds and defaults. */
module QwenEditRmbgRequest {
  import opened Wrappers
  import opened JsonValue
  import opened Zod

  /** A request as `RequestSchema` (lines 6-214) returns it, every default filled in. */
  datatype Request = Request(
    image: string,
    prompt: string,
    seed: int,
    steps: int,
    cfg_scale: real,
    sampler_name: string,
    scheduler: string,
    denoise: real,
    aura_flow_shift: int,
    cfg_norm_strength: real,
    upscale_method: string,
    megapixels: real,
    lora_1_name: string,
    lora_1_strength: real,
    lora_2_name: string,
    lora_2_strength: real,
    lora_3_name: string,
    lora_3_strength: real,
    lora_4_name: string,
    lora_4_strength: real,
    lora_5_name: string,
    lora_5_strength: real,
    lora_6_name: string,
    lora_6_strength: real,
    lora_7_name: string,
    lora_7_strength: real,
    lora_8_name: string,
    lora_8_strength: real,
    lora_9_name: string,
    lora_9_strength: real,
    lora_10_name: string,
    lora_10_strength: real,
    unet_name: string,
    clip_name: string,
    vae_name: string,
    rmbg_model: string,
    rmbg_sensitivity: real,
    rmbg_process_res: int,
    rmbg_mask_blur: int,
    rmbg_mask_offset: int)

  /** The bounds and enum memberships that `RequestSchema` checks. */
  predicate Valid(input: Request, config: Config) {
    && 1 <= input.steps <= 100
    && 0.0 <= input.cfg_scale <= 20.0
    && input.sampler_name in config.samplers
    && input.scheduler in config.schedulers
    && 0.0 <= input.denoise <= 1.0
  }

  // The string defaults that `RequestSchema` declares with `.default(...)`.
  const PromptDefault :=
    "change background into tropical jungle with rocks, change "
    + "scenery into tropical jungle with rocks, and apply soft "
    + "background lens blur."
  const SamplerNameDefault := "euler"
  const SchedulerDefault := "simple"
  const UpscaleMethodDefault := "lanczos"
  const Lora1NameDefault := "Qwen-Image-Lightning-4steps-V2.0.safetensors"
  const Lora2NameDefault := "None"
  const Lora3NameDefault := "None"
  const Lora4NameDefault := "None"
  const Lora5NameDefault := "None"
  const Lora6NameDefault := "None"
  const Lora7NameDefault := "None"
  const Lora8NameDefault := "None"
  const Lora9NameDefault := "None"
  const Lora10NameDefault := "None"
  const UnetNameDefault := "qwen_image_edit_2509_fp8_e4m3fn.safetensors"
  const ClipNameDefault := "qwen_2.5_vl_7b_fp8_scaled.safetensors"
  const VaeNameDefault := "qwen_image_vae.safetensors"
  const RmbgModelDefault := "RMBG-2.0"

  /**
   * `RequestSchema.parse(raw)`, or `None` where zod throws. `drawnSeed` stands for the
   * random default of `seed`.
   */
  function Parse(raw: map<string, Json>, config: Config, drawnSeed: int): Option<Request>
  {
    var image := ReadString(raw, "image", None);
    var prompt := ReadString(raw, "prompt", Some(PromptDefault));
    var seed := ReadInt(raw, "seed", Some(drawnSeed), None, None);
    var steps := ReadInt(raw, "steps", Some(4), Some(1), Some(100));
    var cfg_scale := ReadNumber(raw, "cfg_scale", Some(1.0), Some(0.0), Some(20.0));
    var sampler_name := ReadEnum(raw, "sampler_name", config.samplers, Some(SamplerNameDefault));
    var scheduler := ReadEnum(raw, "scheduler", config.schedulers, Some(SchedulerDefault));
    var denoise := ReadNumber(raw, "denoise", Some(1.0), Some(0.0), Some(1.0));
    var aura_flow_shift := ReadInt(raw, "aura_flow_shift", Some(3), None, None);
    var cfg_norm_strength := ReadNumber(raw, "cfg_norm_strength", Some(1.0), None, None);
    var upscale_method := ReadString(raw, "upscale_method", Some(UpscaleMethodDefault));
    var megapixels := ReadNumber(raw, "megapixels", Some(1.0), None, None);
    var lora_1_name := ReadString(raw, "lora_1_name", Some(Lora1NameDefault));
    var lora_1_strength := ReadNumber(raw, "lora_1_strength", Some(1.0), None, None);
    var lora_2_name := ReadString(raw, "lora_2_name", Some(Lora2NameDefault));
    var lora_2_strength := ReadNumber(raw, "lora_2_strength", Some(1.0), None, None);
    var lora_3_name := ReadString(raw, "lora_3_name", Some(Lora3NameDefault));
    var lora_3_strength := ReadNumber(raw, "lora_3_strength", Some(1.0), None, None);
    var lora_4_name := ReadString(raw, "lora_4_name", Some(Lora4NameDefault));
    var lora_4_strength := ReadNumber(raw, "lora_4_strength", Some(1.0), None, None);
    var lora_5_name := ReadString(raw, "lora_5_name", Some(Lora5NameDefault));
    var lora_5_strength := ReadNumber(raw, "lora_5_strength", Some(1.0), None, None);
    var lora_6_name := ReadString(raw, "lora_6_name", Some(Lora6NameDefault));
    var lora_6_strength := ReadNumber(raw, "lora_6_strength", Some(1.0), None, None);
    var lora_7_name := ReadString(raw, "lora_7_name", Some(Lora7NameDefault));
    var lora_7_strength := ReadNumber(raw, "lora_7_strength", Some(1.0), None, None);
    var lora_8_name := ReadString(raw, "lora_8_name", Some(Lora8NameDefault));
    var lora_8_strength := ReadNumber(raw, "lora_8_strength", Some(1.0), None, None);
    var lora_9_name := ReadString(raw, "lora_9_name", Some(Lora9NameDefault));
    var lora_9_strength := ReadNumber(raw, "lora_9_strength", Some(1.0), None, None);
    var lora_10_name := ReadString(raw, "lora_10_name", Some(Lora10NameDefault));
    var lora_10_strength := ReadNumber(raw, "lora_10_strength", Some(1.0), None, None);
    var unet_name := ReadString(raw, "unet_name", Some(UnetNameDefault));
    var clip_name := ReadString(raw, "clip_name", Some(ClipNameDefault));
    var vae_name := ReadString(raw, "vae_name", Some(VaeNameDefault));
    var rmbg_model := ReadString(raw, "rmbg_model", Some(RmbgModelDefault));
    var rmbg_sensitivity := ReadNumber(raw, "rmbg_sensitivity", Some(1.0), None, None);
    var rmbg_process_res := ReadInt(raw, "rmbg_process_res", Some(1024), None, None);
    var rmbg_mask_blur := ReadInt(raw, "rmbg_mask_blur", Some(0), None, None);
    var rmbg_mask_offset := ReadInt(raw, "rmbg_mask_offset", Some(0), None, None);
    if image.Some?
      && prompt.Some?
      && seed.Some?
      && steps.Some?
      && cfg_scale.Some?
      && sampler_name.Some?
      && scheduler.Some?
      && denoise.Some?
      && aura_flow_shift.Some?
      && cfg_norm_strength.Some?
      && upscale_method.Some?
      && megapixels.Some?
      && lora_1_name.Some?
      && lora_1_strength.Some?
      && lora_2_name.Some?
      && lora_2_strength.Some?
      && lora_3_name.Some?
      && lora_3_strength.Some?
      && lora_4_name.Some?
      && lora_4_strength.Some?
      && lora_5_name.Some?
      && lora_5_strength.Some?
      && lora_6_name.Some?
      && lora_6_strength.Some?
      && lora_7_name.Some?
      && lora_7_strength.Some?
      && lora_8_name.Some?
      && lora_8_strength.Some?
      && lora_9_name.Some?
      && lora_9_strength.Some?
      && lora_10_name.Some?
      && lora_10_strength.Some?
      && unet_name.Some?
      && clip_name.Some?
      && vae_name.Some?
      && rmbg_model.Some?
      && rmbg_sensitivity.Some?
      && rmbg_process_res.Some?
      && rmbg_mask_blur.Some?
      && rmbg_mask_offset.Some? then
      Some(Request(
        image.value,
        prompt.value,
        seed.value,
        steps.value,
        cfg_scale.value,
        sampler_name.value,
        scheduler.value,
        denoise.value,
        aura_flow_shift.value,
        cfg_norm_strength.value,
        upscale_method.value,
        megapixels.value,
        lora_1_name.value,
        lora_1_strength.value,
        lora_2_name.value,
        lora_2_strength.value,
        lora_3_name.value,
        lora_3_strength.value,
        lora_4_name.value,
        lora_4_strength.value,
        lora_5_name.value,
        lora_5_strength.value,
        lora_6_name.value,
        lora_6_strength.value,
        lora_7_name.value,
        lora_7_strength.value,
        lora_8_name.value,
        lora_8_strength.value,
        lora_9_name.value,
        lora_9_strength.value,
        lora_10_name.value,
        lora_10_strength.value,
        unet_name.value,
        clip_name.value,
        vae_name.value,
        rmbg_model.value,
        rmbg_sensitivity.value,
        rmbg_process_res.value,
        rmbg_mask_blur.value,
        rmbg_mask_offset.value))
    else
      None
  }

  /** Whatever `RequestSchema` accepts satisfies its bounds and enum memberships. */
  lemma ParsedIsValid(raw: map<string, Json>, config: Config, drawnSeed: int)
    ensures var r := Parse(raw, config, drawnSeed); r.Some? ==> Valid(r.value, config)
  {
  }

  /**
   * An accepted request carries the value the caller sent under every declared key, and the
   * declared default under every key the caller left out.
   */
  lemma ParsedFields(raw: map<string, Json>, config: Config, drawnSeed: int)
    ensures var r := Parse(raw, config, drawnSeed); r.Some? ==>
      && StringFrom(raw, "image", None, r.value.image)
      && StringFrom(raw, "prompt", Some(PromptDefault), r.value.prompt)
      && IntFrom(raw, "seed", Some(drawnSeed), r.value.seed)
      && IntFrom(raw, "steps", Some(4), r.value.steps)
      && NumberFrom(raw, "cfg_scale", Some(1.0), r.value.cfg_scale)
      && StringFrom(raw, "sampler_name", Some(SamplerNameDefault), r.value.sampler_name)
      && StringFrom(raw, "scheduler", Some(SchedulerDefault), r.value.scheduler)
      && NumberFrom(raw, "denoise", Some(1.0), r.value.denoise)
      && IntFrom(raw, "aura_flow_shift", Some(3), r.value.aura_flow_shift)
      && NumberFrom(raw, "cfg_norm_strength", Some(1.0), r.value.cfg_norm_strength)
      && StringFrom(raw, "upscale_method", Some(UpscaleMethodDefault), r.value.upscale_method)
      && NumberFrom(raw, "megapixels", Some(1.0), r.value.megapixels)
      && StringFrom(raw, "lora_1_name", Some(Lora1NameDefault), r.value.lora_1_name)
      && NumberFrom(raw, "lora_1_strength", Some(1.0), r.value.lora_1_strength)
      && StringFrom(raw, "lora_2_name", Some(Lora2NameDefault), r.value.lora_2_name)
      && NumberFrom(raw, "lora_2_strength", Some(1.0), r.value.lora_2_strength)
      && StringFrom(raw, "lora_3_name", Some(Lora3NameDefault), r.value.lora_3_name)
      && NumberFrom(raw, "lora_3_strength", Some(1.0), r.value.lora_3_strength)
      && StringFrom(raw, "lora_4_name", Some(Lora4NameDefault), r.value.lora_4_name)
      && NumberFrom(raw, "lora_4_strength", Some(1.0), r.value.lora_4_strength)
      && StringFrom(raw, "lora_5_name", Some(Lora5NameDefault), r.value.lora_5_name)
      && NumberFrom(raw, "lora_5_strength", Some(1.0), r.value.lora_5_strength)
      && StringFrom(raw, "lora_6_name", Some(Lora6NameDefault), r.value.lora_6_name)
      && NumberFrom(raw, "lora_6_strength", Some(1.0), r.value.lora_6_strength)
      && StringFrom(raw, "lora_7_name", Some(Lora7NameDefault), r.value.lora_7_name)
      && NumberFrom(raw, "lora_7_strength", Some(1.0), r.value.lora_7_strength)
      && StringFrom(raw, "lora_8_name", Some(Lora8NameDefault), r.value.lora_8_name)
      && NumberFrom(raw, "lora_8_strength", Some(1.0), r.value.lora_8_strength)
      && StringFrom(raw, "lora_9_name", Some(Lora9NameDefault), r.value.lora_9_name)
      && NumberFrom(raw, "lora_9_strength", Some(1.0), r.value.lora_9_strength)
      && StringFrom(raw, "lora_10_name", Some(Lora10NameDefault), r.value.lora_10_name)
      && NumberFrom(raw, "lora_10_strength", Some(1.0), r.value.lora_10_strength)
      && StringFrom(raw, "unet_name", Some(UnetNameDefault), r.value.unet_name)
      && StringFrom(raw, "clip_name", Some(ClipNameDefault), r.value.clip_name)
      && StringFrom(raw, "vae_name", Some(VaeNameDefault), r.value.vae_name)
      && StringFrom(raw, "rmbg_model", Some(RmbgModelDefault), r.value.rmbg_model)
      && NumberFrom(raw, "rmbg_sensitivity", Some(1.0), r.value.rmbg_sensitivity)
      && IntFrom(raw, "rmbg_process_res", Some(1024), r.value.rmbg_process_res)
      && IntFrom(raw, "rmbg_mask_blur", Some(0), r.value.rmbg_mask_blur)
      && IntFrom(raw, "rmbg_mask_offset", Some(0), r.value.rmbg_mask_offset)
  {
    ReadStringSpec(raw, "image", None);
    ReadStringSpec(raw, "prompt", Some(PromptDefault));
    ReadIntSpec(raw, "seed", Some(drawnSeed), None, None);
    ReadIntSpec(raw, "steps", Some(4), Some(1), Some(100));
    ReadNumberSpec(raw, "cfg_scale", Some(1.0), Some(0.0), Some(20.0));
    ReadEnumSpec(raw, "sampler_name", config.samplers, Some(SamplerNameDefault));
    ReadEnumSpec(raw, "scheduler", config.schedulers, Some(SchedulerDefault));
    ReadNumberSpec(raw, "denoise", Some(1.0), Some(0.0), Some(1.0));
    ReadIntSpec(raw, "aura_flow_shift", Some(3), None, None);
    ReadNumberSpec(raw, "cfg_norm_strength", Some(1.0), None, None);
    ReadStringSpec(raw, "upscale_method", Some(UpscaleMethodDefault));
    ReadNumberSpec(raw, "megapixels", Some(1.0), None, None);
    ReadStringSpec(raw, "lora_1_name", Some(Lora1NameDefault));
    ReadNumberSpec(raw, "lora_1_strength", Some(1.0), None, None);
    ReadStringSpec(raw, "lora_2_name", Some(Lora2NameDefault));
    ReadNumberSpec(raw, "lora_2_strength", Some(1.0), None, None);
    ReadStringSpec(raw, "lora_3_name", Some(Lora3NameDefault));
    ReadNumberSpec(raw, "lora_3_strength", Some(1.0), None, None);
    ReadStringSpec(raw, "lora_4_name", Some(Lora4NameDefault));
    ReadNumberSpec(raw, "lora_4_strength", Some(1.0), None, None);
    ReadStringSpec(raw, "lora_5_name", Some(Lora5NameDefault));
    ReadNumberSpec(raw, "lora_5_strength", Some(1.0), None, None);
    ReadStringSpec(raw, "lora_6_name", Some(Lora6NameDefault));
    ReadNumberSpec(raw, "lora_6_strength", Some(1.0), None, None);
    ReadStringSpec(raw, "lora_7_name", Some(Lora7NameDefault));
    ReadNumberSpec(raw, "lora_7_strength", Some(1.0), None, None);
    ReadStringSpec(raw, "lora_8_name", Some(Lora8NameDefault));
    ReadNumberSpec(raw, "lora_8_strength", Some(1.0), None, None);
    ReadStringSpec(raw, "lora_9_name", Some(Lora9NameDefault));
    ReadNumberSpec(raw, "lora_9_strength", Some(1.0), None, None);
    ReadStringSpec(raw, "lora_10_name", Some(Lora10NameDefault));
    ReadNumberSpec(raw, "lora_10_strength", Some(1.0), None, None);
    ReadStringSpec(raw, "unet_name", Some(UnetNameDefault));
    ReadStringSpec(raw, "clip_name", Some(ClipNameDefault));
    ReadStringSpec(raw, "vae_name", Some(VaeNameDefault));
    ReadStringSpec(raw, "rmbg_model", Some(RmbgModelDefault));
    ReadNumberSpec(raw, "rmbg_sensitivity", Some(1.0), None, None);
    ReadIntSpec(raw, "rmbg_process_res", Some(1024), None, None);
    ReadIntSpec(raw, "rmbg_mask_blur", Some(0), None, None);
    ReadIntSpec(raw, "rmbg_mask_offset", Some(0), None, None);
  }

  /** Every key `RequestSchema` declares passes its check; a key without a default must be present. */
  predicate KeysPass(raw: map<string, Json>, config: Config, drawnSeed: int) {
    && StringPasses(raw, "image", None)
    && StringPasses(raw, "prompt", Some(PromptDefault))
    && IntPasses(raw, "seed", Some(drawnSeed), None, None)
    && IntPasses(raw, "steps", Some(4), Some(1), Some(100))
    && NumberPasses(raw, "cfg_scale", Some(1.0), Some(0.0), Some(20.0))
    && EnumPasses(raw, "sampler_name", config.samplers, Some(SamplerNameDefault))
    && EnumPasses(raw, "scheduler", config.schedulers, Some(SchedulerDefault))
    && NumberPasses(raw, "denoise", Some(1.0), Some(0.0), Some(1.0))
    && IntPasses(raw, "aura_flow_shift", Some(3), None, None)
    && NumberPasses(raw, "cfg_norm_strength", Some(1.0), None, None)
    && StringPasses(raw, "upscale_method", Some(UpscaleMethodDefault))
    && NumberPasses(raw, "megapixels", Some(1.0), None, None)
    && StringPasses(raw, "lora_1_name", Some(Lora1NameDefault))
    && NumberPasses(raw, "lora_1_strength", Some(1.0), None, None)
    && StringPasses(raw, "lora_2_name", Some(Lora2NameDefault))
    && NumberPasses(raw, "lora_2_strength", Some(1.0), None, None)
    && StringPasses(raw, "lora_3_name", Some(Lora3NameDefault))
    && NumberPasses(raw, "lora_3_strength", Some(1.0), None, None)
    && StringPasses(raw, "lora_4_name", Some(Lora4NameDefault))
    && NumberPasses(raw, "lora_4_strength", Some(1.0), None, None)
    && StringPasses(raw, "lora_5_name", Some(Lora5NameDefault))
    && NumberPasses(raw, "lora_5_strength", Some(1.0), None, None)
    && StringPasses(raw, "lora_6_name", Some(Lora6NameDefault))
    && NumberPasses(raw, "lora_6_strength", Some(1.0), None, None)
    && StringPasses(raw, "lora_7_name", Some(Lora7NameDefault))
    && NumberPasses(raw, "lora_7_strength", Some(1.0), None, None)
    && StringPasses(raw, "lora_8_name", Some(Lora8NameDefault))
    && NumberPasses(raw, "lora_8_strength", Some(1.0), None, None)
    && StringPasses(raw, "lora_9_name", Some(Lora9NameDefault))
    && NumberPasses(raw, "lora_9_strength", Some(1.0), None, None)
    && StringPasses(raw, "lora_10_name", Some(Lora10NameDefault))
    && NumberPasses(raw, "lora_10_strength", Some(1.0), None, None)
    && StringPasses(raw, "unet_name", Some(UnetNameDefault))
    && StringPasses(raw, "clip_name", Some(ClipNameDefault))
    && StringPasses(raw, "vae_name", Some(VaeNameDefault))
    && StringPasses(raw, "rmbg_model", Some(RmbgModelDefault))
    && NumberPasses(raw, "rmbg_sensitivity", Some(1.0), None, None)
    && IntPasses(raw, "rmbg_process_res", Some(1024), None, None)
    && IntPasses(raw, "rmbg_mask_blur", Some(0), None, None)
    && IntPasses(raw, "rmbg_mask_offset", Some(0), None, None)
  }

  /** A request `RequestSchema` accepts passes every key check. */
  lemma AcceptedKeysPass(raw: map<string, Json>, config: Config, drawnSeed: int)
    requires Parse(raw, config, drawnSeed).Some?
    ensures KeysPass(raw, config, drawnSeed)
  {
    ReadStringSpec(raw, "image", None);
    ReadStringSpec(raw, "prompt", Some(PromptDefault));
    ReadIntSpec(raw, "seed", Some(drawnSeed), None, None);
    ReadIntSpec(raw, "steps", Some(4), Some(1), Some(100));
    ReadNumberSpec(raw, "cfg_scale", Some(1.0), Some(0.0), Some(20.0));
    ReadEnumSpec(raw, "sampler_name", config.samplers, Some(SamplerNameDefault));
    ReadEnumSpec(raw, "scheduler", config.schedulers, Some(SchedulerDefault));
    ReadNumberSpec(raw, "denoise", Some(1.0), Some(0.0), Some(1.0));
    ReadIntSpec(raw, "aura_flow_shift", Some(3), None, None);
    ReadNumberSpec(raw, "cfg_norm_strength", Some(1.0), None, None);
    ReadStringSpec(raw, "upscale_method", Some(UpscaleMethodDefault));
    ReadNumberSpec(raw, "megapixels", Some(1.0), None, None);
    ReadStringSpec(raw, "lora_1_name", Some(Lora1NameDefault));
    ReadNumberSpec(raw, "lora_1_strength", Some(1.0), None, None);
    ReadStringSpec(raw, "lora_2_name", Some(Lora2NameDefault));
    ReadNumberSpec(raw, "lora_2_strength", Some(1.0), None, None);
    ReadStringSpec(raw, "lora_3_name", Some(Lora3NameDefault));
    ReadNumberSpec(raw, "lora_3_strength", Some(1.0), None, None);
    ReadStringSpec(raw, "lora_4_name", Some(Lora4NameDefault));
    ReadNumberSpec(raw, "lora_4_strength", Some(1.0), None, None);
    ReadStringSpec(raw, "lora_5_name", Some(Lora5NameDefault));
    ReadNumberSpec(raw, "lora_5_strength", Some(1.0), None, None);
    ReadStringSpec(raw, "lora_6_name", Some(Lora6NameDefault));
    ReadNumberSpec(raw, "lora_6_strength", Some(1.0), None, None);
    ReadStringSpec(raw, "lora_7_name", Some(Lora7NameDefault));
    ReadNumberSpec(raw, "lora_7_strength", Some(1.0), None, None);
    ReadStringSpec(raw, "lora_8_name", Some(Lora8NameDefault));
    ReadNumberSpec(raw, "lora_8_strength", Some(1.0), None, None);
    ReadStringSpec(raw, "lora_9_name", Some(Lora9NameDefault));
    ReadNumberSpec(raw, "lora_9_strength", Some(1.0), None, None);
    ReadStringSpec(raw, "lora_10_name", Some(Lora10NameDefault));
    ReadNumberSpec(raw, "lora_10_strength", Some(1.0), None, None);
    ReadStringSpec(raw, "unet_name", Some(UnetNameDefault));
    ReadStringSpec(raw, "clip_name", Some(ClipNameDefault));
    ReadStringSpec(raw, "vae_name", Some(VaeNameDefault));
    ReadStringSpec(raw, "rmbg_model", Some(RmbgModelDefault));
    ReadNumberSpec(raw, "rmbg_sensitivity", Some(1.0), None, None);
    ReadIntSpec(raw, "rmbg_process_res", Some(1024), None, None);
    ReadIntSpec(raw, "rmbg_mask_blur", Some(0), None, None);
    ReadIntSpec(raw, "rmbg_mask_offset", Some(0), None, None);
  }

  /** A request that passes every key check is accepted. */
  lemma PassingKeysAccepted(raw: map<string, Json>, config: Config, drawnSeed: int)
    requires KeysPass(raw, config, drawnSeed)
    ensures Parse(raw, config, drawnSeed).Some?
  {
    ReadStringSpec(raw, "image", None);
    ReadStringSpec(raw, "prompt", Some(PromptDefault));
    ReadIntSpec(raw, "seed", Some(drawnSeed), None, None);
    ReadIntSpec(raw, "steps", Some(4), Some(1), Some(100));
    ReadNumberSpec(raw, "cfg_scale", Some(1.0), Some(0.0), Some(20.0));
    ReadEnumSpec(raw, "sampler_name", config.samplers, Some(SamplerNameDefault));
    ReadEnumSpec(raw, "scheduler", config.schedulers, Some(SchedulerDefault));
    ReadNumberSpec(raw, "denoise", Some(1.0), Some(0.0), Some(1.0));
    ReadIntSpec(raw, "aura_flow_shift", Some(3), None, None);
    ReadNumberSpec(raw, "cfg_norm_strength", Some(1.0), None, None);
    ReadStringSpec(raw, "upscale_method", Some(UpscaleMethodDefault));
    ReadNumberSpec(raw, "megapixels", Some(1.0), None, None);
    ReadStringSpec(raw, "lora_1_name", Some(Lora1NameDefault));
    ReadNumberSpec(raw, "lora_1_strength", Some(1.0), None, None);
    ReadStringSpec(raw, "lora_2_name", Some(Lora2NameDefault));
    ReadNumberSpec(raw, "lora_2_strength", Some(1.0), None, None);
    ReadStringSpec(raw, "lora_3_name", Some(Lora3NameDefault));
    ReadNumberSpec(raw, "lora_3_strength", Some(1.0), None, None);
    ReadStringSpec(raw, "lora_4_name", Some(Lora4NameDefault));
    ReadNumberSpec(raw, "lora_4_strength", Some(1.0), None, None);
    ReadStringSpec(raw, "lora_5_name", Some(Lora5NameDefault));
    ReadNumberSpec(raw, "lora_5_strength", Some(1.0), None, None);
    ReadStringSpec(raw, "lora_6_name", Some(Lora6NameDefault));
    ReadNumberSpec(raw, "lora_6_strength", Some(1.0), None, None);
    ReadStringSpec(raw, "lora_7_name", Some(Lora7NameDefault));
    ReadNumberSpec(raw, "lora_7_strength", Some(1.0), None, None);
    ReadStringSpec(raw, "lora_8_name", Some(Lora8NameDefault));
    ReadNumberSpec(raw, "lora_8_strength", Some(1.0), None, None);
    ReadStringSpec(raw, "lora_9_name", Some(Lora9NameDefault));
    ReadNumberSpec(raw, "lora_9_strength", Some(1.0), None, None);
    ReadStringSpec(raw, "lora_10_name", Some(Lora10NameDefault));
    ReadNumberSpec(raw, "lora_10_strength", Some(1.0), None, None);
    ReadStringSpec(raw, "unet_name", Some(UnetNameDefault));
    ReadStringSpec(raw, "clip_name", Some(ClipNameDefault));
    ReadStringSpec(raw, "vae_name", Some(VaeNameDefault));
    ReadStringSpec(raw, "rmbg_model", Some(RmbgModelDefault));
    ReadNumberSpec(raw, "rmbg_sensitivity", Some(1.0), None, None);
    ReadIntSpec(raw, "rmbg_process_res", Some(1024), None, None);
    ReadIntSpec(raw, "rmbg_mask_blur", Some(0), None, None);
    ReadIntSpec(raw, "rmbg_mask_offset", Some(0), None, None);
  }

  /**
   * `RequestSchema` accepts a request exactly when every declared key passes its check: the
   * declared JSON type, the bounds, `.int()` and the enum, with a missing key taking its
   * default and a key without a default required.
   */
  lemma ParseAccepts(raw: map<string, Json>, config: Config, drawnSeed: int)
    ensures Parse(raw, config, drawnSeed).Some? <==> KeysPass(raw, config, drawnSeed)
  {
    if Parse(raw, config, drawnSeed).Some? {
      AcceptedKeysPass(raw, config, drawnSeed);
    }
    if KeysPass(raw, config, drawnSeed) {
      PassingKeysAccepted(raw, config, drawnSeed);
    }
  }

}

/** `generateWorkflow` of api-workflows/qwen_edit_rmbg.ts as a prompt graph. */
module QwenEditRmbg {
  import opened Wrappers
  import opened ComfyGraph
  import opened QwenEditRmbgRequest

  /** The keys of the prompt's nodes. */
  const Keys: set<NodeId> := {3, 8, 37, 38, 39, 60, 66, 75, 78, 88, 93, 111, 116, 117, 118, 119, 120, 123, 127, 128, 129, 132, 148, 151, 152}

  /**
   * A topological rank: each node links only to nodes of lower rank. Written as a search
   * over the sorted keys, so that evaluating it at one key takes a few comparisons.
   */
  function Rank(k: NodeId): nat {
    if k < 116 then
      if k < 66 then
        if k < 38 then
          if k < 8 then
            4
          else
            if k < 37 then
              5
            else
              0
        else
          if k < 39 then
            0
          else
            if k < 60 then
              0
            else
              6
      else
        if k < 88 then
          if k < 75 then
            2
          else
            if k < 78 then
              3
            else
              0
        else
          if k < 93 then
            3
          else
            if k < 111 then
              1
            else
              2
    else
      if k < 127 then
        if k < 119 then
          if k < 117 then
            3
          else
            if k < 118 then
              1
            else
              7
        else
          if k < 120 then
            8
          else
            if k < 123 then
              9
            else
              2
      else
        if k < 132 then
          if k < 128 then
            2
          else
            if k < 129 then
              5
            else
              6
        else
          if k < 151 then
            3
          else
            if k < 152 then
              2
            else
              4
  }

  /** Node "3" (lines 220-237). */
  function Node3(input: Request): (n: Node)
    ensures LinksWithin(n, Keys) && LinksBelow(n, Rank(3), Rank)
    ensures Defined(n)
  {
    Node("KSampler", map[
      "seed" := N(input.seed),
      "steps" := N(input.steps),
      "cfg" := R(input.cfg_scale),
      "sampler_name" := S(input.sampler_name),
      "scheduler" := S(input.scheduler),
      "denoise" := R(input.denoise),
      "model" := Ref(75, 0),
      "positive" := Ref(111, 0),
      "negative" := Ref(116, 0),
      "latent_image" := Ref(127, 0)])
  }

  /** Node "8" (lines 238-247). */
  function Node8(input: Request): (n: Node)
    ensures LinksWithin(n, Keys) && LinksBelow(n, Rank(8), Rank)
    ensures Defined(n)
  {
    Node("VAEDecode", map[
      "samples" := Ref(3, 0),
      "vae" := Ref(39, 0)])
  }

  /** Node "37" (lines 248-257). */
  function Node37(input: Request): (n: Node)
    ensures LinksWithin(n, Keys) && LinksBelow(n, Rank(37), Rank)
    ensures Defined(n)
  {
    Node("UNETLoader", map[
      "unet_name" := S(input.unet_name),
      "weight_dtype" := S("default")])
  }

  /** Node "38" (lines 258-268). */
  function Node38(input: Request): (n: Node)
    ensures LinksWithin(n, Keys) && LinksBelow(n, Rank(38), Rank)
    ensures Defined(n)
  {
    Node("CLIPLoader", map[
      "clip_name" := S(input.clip_name),
      "type" := S("qwen_image"),
      "device" := S("default")])
  }

  /** Node "39" (lines 269-277). */
  function Node39(input: Request): (n: Node)
    ensures LinksWithin(n, Keys) && LinksBelow(n, Rank(39), Rank)
    ensures Defined(n)
  {
    Node("VAELoader", map[
      "vae_name" := S(input.vae_name)])
  }

  /** Node "60" (lines 278-287). */
  function Node60(input: Request): (n: Node)
    ensures LinksWithin(n, Keys) && LinksBelow(n, Rank(60), Rank)
    ensures Defined(n)
  {
    Node("SaveImage", map[
      "filename_prefix" := S("ComfyUI"),
      "images" := Ref(8, 0)])
  }

  /** Node "66" (lines 288-297). */
  function Node66(input: Request): (n: Node)
    ensures LinksWithin(n, Keys) && LinksBelow(n, Rank(66), Rank)
    ensures Defined(n)
  {
    Node("ModelSamplingAuraFlow", map[
      "shift" := N(input.aura_flow_shift),
      "model" := Ref(117, 0)])
  }

  /** Node "75" (lines 298-307). */
  function Node75(input: Request): (n: Node)
    ensures LinksWithin(n, Keys) && LinksBelow(n, Rank(75), Rank)
    ensures Defined(n)
  {
    Node("CFGNorm", map[
      "strength" := R(input.cfg_norm_strength),
      "model" := Ref(66, 0)])
  }

  /** Node "78" (lines 308-317). */
  function Node78(input: Request): (n: Node)
    ensures LinksWithin(n, Keys) && LinksBelow(n, Rank(78), Rank)
    ensures Defined(n)
  {
    Node("LoadImage", map[
      "image" := S(input.image),
      "upload" := S("image")])
  }

  /** Node "88" (lines 318-327). */
  function Node88(input: Request): (n: Node)
    ensures LinksWithin(n, Keys) && LinksBelow(n, Rank(88), Rank)
    ensures Defined(n)
  {
    Node("VAEEncode", map[
      "pixels" := Ref(123, 0),
      "vae" := Ref(39, 0)])
  }

  /** Node "93" (lines 328-338). */
  function Node93(input: Request): (n: Node)
    ensures LinksWithin(n, Keys) && LinksBelow(n, Rank(93), Rank)
    ensures Defined(n)
  {
    Node("ImageScaleToTotalPixels", map[
      "upscale_method" := S(input.upscale_method),
      "megapixels" := R(input.megapixels),
      "image" := Ref(78, 0)])
  }

  /** Node "111" (lines 339-350). */
  function Node111(input: Request): (n: Node)
    ensures LinksWithin(n, Keys) && LinksBelow(n, Rank(111), Rank)
    ensures Defined(n)
  {
    Node("TextEncodeQwenImageEditPlus", map[
      "prompt" := S(input.prompt),
      "clip" := Ref(117, 1),
      "vae" := Ref(39, 0),
      "image1" := Ref(93, 0)])
  }

  /** Node "116" (lines 351-359). */
  function Node116(input: Request): (n: Node)
    ensures LinksWithin(n, Keys) && LinksBelow(n, Rank(116), Rank)
    ensures Defined(n)
  {
    Node("ConditioningZeroOut", map[
      "conditioning" := Ref(111, 0)])
  }

  /** Node "117" (lines 360-389). */
  function Node117(input: Request): (n: Node)
    ensures LinksWithin(n, Keys) && LinksBelow(n, Rank(117), Rank)
    ensures Defined(n)
  {
    Node("TooManyLoras", map[
      "lora_01" := S(input.lora_1_name),
      "strength_01" := R(input.lora_1_strength),
      "lora_02" := S(input.lora_2_name),
      "strength_02" := R(input.lora_2_strength),
      "lora_03" := S(input.lora_3_name),
      "strength_03" := R(input.lora_3_strength),
      "lora_04" := S(input.lora_4_name),
      "strength_04" := R(input.lora_4_strength),
      "lora_05" := S(input.lora_5_name),
      "strength_05" := R(input.lora_5_strength),
      "lora_06" := S(input.lora_6_name),
      "strength_06" := R(input.lora_6_strength),
      "lora_07" := S(input.lora_7_name),
      "strength_07" := R(input.lora_7_strength),
      "lora_08" := S(input.lora_8_name),
      "strength_08" := R(input.lora_8_strength),
      "lora_09" := S(input.lora_9_name),
      "strength_09" := R(input.lora_9_strength),
      "lora_10" := S(input.lora_10_name),
      "strength_10" := R(input.lora_10_strength),
      "model" := Ref(37, 0),
      "clip" := Ref(38, 0)])
  }

  /** Node "118" (lines 390-407). */
  function Node118(input: Request): (n: Node)
    ensures LinksWithin(n, Keys) && LinksBelow(n, Rank(118), Rank)
    ensures Defined(n)
  {
    Node("KSampler", map[
      "seed" := N(input.seed + 1),
      "steps" := N(input.steps),
      "cfg" := R(input.cfg_scale),
      "sampler_name" := S(input.sampler_name),
      "scheduler" := S(input.scheduler),
      "denoise" := R(input.denoise),
      "model" := Ref(75, 0),
      "positive" := Ref(128, 0),
      "negative" := Ref(129, 0),
      "latent_image" := Ref(88, 0)])
  }

  /** Node "119" (lines 408-417). */
  function Node119(input: Request): (n: Node)
    ensures LinksWithin(n, Keys) && LinksBelow(n, Rank(119), Rank)
    ensures Defined(n)
  {
    Node("VAEDecode", map[
      "samples" := Ref(118, 0),
      "vae" := Ref(39, 0)])
  }

  /** Node "120" (lines 418-427). */
  function Node120(input: Request): (n: Node)
    ensures LinksWithin(n, Keys) && LinksBelow(n, Rank(120), Rank)
    ensures Defined(n)
  {
    Node("SaveImage", map[
      "filename_prefix" := S("ComfyUI"),
      "images" := Ref(119, 0)])
  }

  /** Node "123" (lines 428-445). */
  function Node123(input: Request): (n: Node)
    ensures LinksWithin(n, Keys) && LinksBelow(n, Rank(123), Rank)
    ensures Defined(n)
  {
    Node("RMBG", map[
      "model" := S(input.rmbg_model),
      "sensitivity" := R(input.rmbg_sensitivity),
      "process_res" := N(input.rmbg_process_res),
      "mask_blur" := N(input.rmbg_mask_blur),
      "mask_offset" := N(input.rmbg_mask_offset),
      "invert_output" := B(false),
      "refine_foreground" := B(false),
      "background" := S("Alpha"),
      "background_color" := S("#ffffff"),
      "image" := Ref(93, 0)])
  }

  /** Node "127" (lines 446-455). */
  function Node127(input: Request): (n: Node)
    ensures LinksWithin(n, Keys) && LinksBelow(n, Rank(127), Rank)
    ensures Defined(n)
  {
    Node("VAEEncode", map[
      "pixels" := Ref(93, 0),
      "vae" := Ref(39, 0)])
  }

  /** Node "128" (lines 456-467). */
  function Node128(input: Request): (n: Node)
    ensures LinksWithin(n, Keys) && LinksBelow(n, Rank(128), Rank)
    ensures Defined(n)
  {
    Node("TextEncodeQwenImageEditPlus", map[
      "prompt" := S(input.prompt),
      "clip" := Ref(117, 1),
      "vae" := Ref(39, 0),
      "image1" := Ref(152, 0)])
  }

  /** Node "129" (lines 468-476). */
  function Node129(input: Request): (n: Node)
    ensures LinksWithin(n, Keys) && LinksBelow(n, Rank(129), Rank)
    ensures Defined(n)
  {
    Node("ConditioningZeroOut", map[
      "conditioning" := Ref(128, 0)])
  }

  /** Node "132" (lines 477-486). */
  function Node132(input: Request): (n: Node)
    ensures LinksWithin(n, Keys) && LinksBelow(n, Rank(132), Rank)
    ensures Defined(n)
  {
    Node("SaveImage", map[
      "filename_prefix" := S("ComfyUI"),
      "images" := Ref(123, 0)])
  }

  /** Node "148" (lines 487-498). */
  function Node148(input: Request): (n: Node)
    ensures LinksWithin(n, Keys) && LinksBelow(n, Rank(148), Rank)
    ensures Defined(n)
  {
    Node("EmptyImage", map[
      "width" := Ref(151, 0),
      "height" := Ref(151, 1),
      "batch_size" := N(1),
      "color" := N(16777215)])
  }

  /** Node "151" (lines 499-507). */
  function Node151(input: Request): (n: Node)
    ensures LinksWithin(n, Keys) && LinksBelow(n, Rank(151), Rank)
    ensures Defined(n)
  {
    Node("GetImageSize+", map[
      "image" := Ref(93, 0)])
  }

  /** Node "152" (lines 508-521). */
  function Node152(input: Request): (n: Node)
    ensures LinksWithin(n, Keys) && LinksBelow(n, Rank(152), Rank)
    ensures Defined(n)
  {
    Node("ImageCompositeMasked", map[
      "x" := N(0),
      "y" := N(0),
      "resize_source" := B(false),
      "destination" := Ref(148, 0),
      "source" := Ref(123, 0),
      "mask" := Ref(123, 1)])
  }

  /** The node under key `k`; keys outside `Keys` get an empty placeholder that `Generate` never uses. */
  function NodeAt(input: Request, k: NodeId): Node {
    match k
    case 3 => Node3(input)
    case 8 => Node8(input)
    case 37 => Node37(input)
    case 38 => Node38(input)
    case 39 => Node39(input)
    case 60 => Node60(input)
    case 66 => Node66(input)
    case 75 => Node75(input)
    case 78 => Node78(input)
    case 88 => Node88(input)
    case 93 => Node93(input)
    case 111 => Node111(input)
    case 116 => Node116(input)
    case 117 => Node117(input)
    case 118 => Node118(input)
    case 119 => Node119(input)
    case 120 => Node120(input)
    case 123 => Node123(input)
    case 127 => Node127(input)
    case 128 => Node128(input)
    case 129 => Node129(input)
    case 132 => Node132(input)
    case 148 => Node148(input)
    case 151 => Node151(input)
    case 152 => Node152(input)
    case _ => Node("", map[])
  }

  /** `generateWorkflow(input)` (lines 218-523). */
  function Generate(input: Request): Graph
  {
    map k | k in Keys :: NodeAt(input, k)
  }

  /** The prompt has a node under exactly the keys of `Keys`, and `NodeAt(input, k)` is that node. */
  lemma GenerateAt(input: Request, k: NodeId)
    ensures k in Generate(input) <==> k in Keys
    ensures k in Keys ==> Generate(input)[k] == NodeAt(input, k)
  {
  }

  /** Each node links only to nodes of the prompt of lower rank, and reads no undefined value. */
  lemma NodeShape(input: Request, k: NodeId)
    requires k in Keys
    ensures LinksWithin(NodeAt(input, k), Keys) && LinksBelow(NodeAt(input, k), Rank(k), Rank)
    ensures Defined(NodeAt(input, k))
  {
  }

  /** `Rank` ranks the prompt, and no input of the prompt is undefined. */
  lemma WellFormed(input: Request)
    ensures RankedBy(Generate(input), Rank)
    ensures AllDefined(Generate(input))
  {
    forall k | k in Keys
      ensures LinksWithin(NodeAt(input, k), Keys) && LinksBelow(NodeAt(input, k), Rank(k), Rank)
      ensures Defined(NodeAt(input, k))
    {
      NodeShape(input, k);
    }
  }

  /** Every link of the prompt names one of its nodes, and no chain of links is circular. */
  lemma ClosedAndAcyclic(input: Request)
    ensures Closed(Generate(input)) && Acyclic(Generate(input))
  {
    WellFormed(input);
    RankedIsClosedAndAcyclic(Generate(input), Rank);
  }
}
