/** `RequestSchema` of api-workflows/kontext_dev.ts: the request fields, their bounds and defaults. */
module KontextDevRequest {
  import opened Wrappers
  import opened JsonValue
  import opened Zod

  /** A request as `RequestSchema` (lines 6-116) returns it, every default filled in. */
  datatype Request = Request(
    image: string,
    prompt: string,
    seed: int,
    steps: int,
    cfg_scale: real,
    sampler_name: string,
    scheduler: string,
    denoise: real,
    guidance: real,
    unet_name: string,
    clip_name1: string,
    clip_name2: string,
    vae_name: string,
    face_detection_model: string,
    face_restore_model: string,
    face_restore_visibility: real,
    face_restore_take_count: int,
    codeformer_weight: real,
    lora_1_name: string,
    lora_1_strength: real,
    lora_2_name: string,
    lora_2_strength: real,
    lora_3_name: string,
    lora_3_strength: real,
    lora_4_name: string,
    lora_4_strength: real,
    lora_5_name: string,
    lora_5_strength: real,
    lora_6_name: string,
    lora_6_strength: real,
    lora_7_name: string,
    lora_7_strength: real,
    lora_8_name: string,
    lora_8_strength: real,
    lora_9_name: string,
    lora_9_strength: real,
    lora_10_name: string,
    lora_10_strength: real)

  /** The bounds and enum memberships that `RequestSchema` checks. */
  predicate Valid(input: Request, config: Config) {
    && 1 <= input.steps <= 100
    && 0.0 <= input.cfg_scale <= 20.0
    && input.sampler_name in config.samplers
    && input.scheduler in config.schedulers
    && 0.0 <= input.denoise <= 1.0
    && 0.0 <= input.face_restore_visibility <= 1.0
    && 0.0 <= input.codeformer_weight <= 1.0
  }

  // The string defaults that `RequestSchema` declares with `.default(...)`.
  const PromptDefault :=
    "transform to 3d style\n===\ntransform to 3d style\n===\nreplace "
    + "background to beach scene. <restoreface>"
  const SamplerNameDefault := "euler"
  const SchedulerDefault := "simple"
  const UnetNameDefault := "flux1-dev-kontext_fp8_scaled.safetensors"
  const ClipName1Default := "clip_l.safetensors"
  const ClipName2Default := "t5xxl_fp8_e4m3fn_scaled.safetensors"
  const VaeNameDefault := "ae.safetensors"
  const FaceDetectionModelDefault := "retinaface_resnet50"
  const FaceRestoreModelDefault := "codeformer.pth"
  const Lora1NameDefault := "None"
  const Lora2NameDefault := "None"
  const Lora3NameDefault := "None"
  const Lora4NameDefault := "None"
  const Lora5NameDefault := "None"
  const Lora6NameDefault := "None"
  const Lora7NameDefault := "None"
  const Lora8NameDefault := "None"
  const Lora9NameDefault := "None"
  const Lora10NameDefault := "None"

  /**
   * `RequestSchema.parse(raw)`, or `None` where zod throws. `drawnSeed` stands for the
   * random default of `seed`.
   */
  function Parse(raw: map<string, Json>, config: Config, drawnSeed: int): Option<Request>
  {
    var image := ReadString(raw, "image", None);
    var prompt := ReadString(raw, "prompt", Some(PromptDefault));
    var seed := ReadInt(raw, "seed", Some(drawnSeed), None, None);
    var steps := ReadInt(raw, "steps", Some(20), Some(1), Some(100));
    var cfg_scale := ReadNumber(raw, "cfg_scale", Some(1.0), Some(0.0), Some(20.0));
    var sampler_name := ReadEnum(raw, "sampler_name", config.samplers, Some(SamplerNameDefault));
    var scheduler := ReadEnum(raw, "scheduler", config.schedulers, Some(SchedulerDefault));
    var denoise := ReadNumber(raw, "denoise", Some(1.0), Some(0.0), Some(1.0));
    var guidance := ReadNumber(raw, "guidance", Some(2.5), None, None);
    var unet_name := ReadString(raw, "unet_name", Some(UnetNameDefault));
    var clip_name1 := ReadString(raw, "clip_name1", Some(ClipName1Default));
    var clip_name2 := ReadString(raw, "clip_name2", Some(ClipName2Default));
    var vae_name := ReadString(raw, "vae_name", Some(VaeNameDefault));
    var face_detection_model := ReadString(raw, "face_detection_model", Some(FaceDetectionModelDefault));
    var face_restore_model := ReadString(raw, "face_restore_model", Some(FaceRestoreModelDefault));
    var face_restore_visibility := ReadNumber(raw, "face_restore_visibility", Some(1.0), Some(0.0), Some(1.0));
    var face_restore_take_count := ReadInt(raw, "face_restore_take_count", Some(10), None, None);
    var codeformer_weight := ReadNumber(raw, "codeformer_weight", Some(0.5), Some(0.0), Some(1.0));
    var lora_1_name := ReadString(raw, "lora_1_name", Some(Lora1NameDefault));
    var lora_1_strength := ReadNumber(raw, "lora_1_strength", Some(1.0), None, None);
    var lora_2_name := ReadString(raw, "lora_2_name", Some(Lora2NameDefault));
    var lora_2_strength := ReadNumber(raw, "lora_2_strength", Some(1.0), None, None);
    var lora_3_name := ReadString(raw, "lora_3_name", Some(Lora3NameDefault));
    var lora_3_strength := ReadNumber(raw, "lora_3_strength", Some(1.0), None, None);
    var lora_4_name := ReadString(raw, "lora_4_name", Some(Lora4NameDefault));
    var lora_4_strength := ReadNumber(raw, "lora_4_strength", Some(1.0), None, None);
    var lora_5_name := ReadString(raw, "lora_5_name", Some(Lora5NameDefault));
    var lora_5_strength := ReadNumber(raw, "lora_5_strength", Some(1.0), None, None);
    var lora_6_name := ReadString(raw, "lora_6_name", Some(Lora6NameDefault));
    var lora_6_strength := ReadNumber(raw, "lora_6_strength", Some(1.0), None, None);
    var lora_7_name := ReadString(raw, "lora_7_name", Some(Lora7NameDefault));
    var lora_7_strength := ReadNumber(raw, "lora_7_strength", Some(1.0), None, None);
    var lora_8_name := ReadString(raw, "lora_8_name", Some(Lora8NameDefault));
    var lora_8_strength := ReadNumber(raw, "lora_8_strength", Some(1.0), None, None);
    var lora_9_name := ReadString(raw, "lora_9_name", Some(Lora9NameDefault));
    var lora_9_strength := ReadNumber(raw, "lora_9_strength", Some(1.0), None, None);
    var lora_10_name := ReadString(raw, "lora_10_name", Some(Lora10NameDefault));
    var lora_10_strength := ReadNumber(raw, "lora_10_strength", Some(1.0), None, None);
    if image.Some?
      && prompt.Some?
      && seed.Some?
      && steps.Some?
      && cfg_scale.Some?
      && sampler_name.Some?
      && scheduler.Some?
      && denoise.Some?
      && guidance.Some?
      && unet_name.Some?
      && clip_name1.Some?
      && clip_name2.Some?
      && vae_name.Some?
      && face_detection_model.Some?
      && face_restore_model.Some?
      && face_restore_visibility.Some?
      && face_restore_take_count.Some?
      && codeformer_weight.Some?
      && lora_1_name.Some?
      && lora_1_strength.Some?
      && lora_2_name.Some?
      && lora_2_strength.Some?
      && lora_3_name.Some?
      && lora_3_strength.Some?
      && lora_4_name.Some?
      && lora_4_strength.Some?
      && lora_5_name.Some?
      && lora_5_strength.Some?
      && lora_6_name.Some?
      && lora_6_strength.Some?
      && lora_7_name.Some?
      && lora_7_strength.Some?
      && lora_8_name.Some?
      && lora_8_strength.Some?
      && lora_9_name.Some?
      && lora_9_strength.Some?
      && lora_10_name.Some?
      && lora_10_strength.Some? then
      Some(Request(
        image.value,
        prompt.value,
        seed.value,
        steps.value,
        cfg_scale.value,
        sampler_name.value,
        scheduler.value,
        denoise.value,
        guidance.value,
        unet_name.value,
        clip_name1.value,
        clip_name2.value,
        vae_name.value,
        face_detection_model.value,
        face_restore_model.value,
        face_restore_visibility.value,
        face_restore_take_count.value,
        codeformer_weight.value,
        lora_1_name.value,
        lora_1_strength.value,
        lora_2_name.value,
        lora_2_strength.value,
        lora_3_name.value,
        lora_3_strength.value,
        lora_4_name.value,
        lora_4_strength.value,
        lora_5_name.value,
        lora_5_strength.value,
        lora_6_name.value,
        lora_6_strength.value,
        lora_7_name.value,
        lora_7_strength.value,
        lora_8_name.value,
        lora_8_strength.value,
        lora_9_name.value,
        lora_9_strength.value,
        lora_10_name.value,
        lora_10_strength.value))
    else
      None
  }

  /** Whatever `RequestSchema` accepts satisfies its bounds and enum memberships. */
  lemma ParsedIsValid(raw: map<string, Json>, config: Config, drawnSeed: int)
    ensures var r := Parse(raw, config, drawnSeed); r.Some? ==> Valid(r.value, config)
  {
  }

  /**
   * An accepted request carries the value the caller sent under every declared key, and the
   * declared default under every key the caller left out.
   */
  lemma ParsedFields(raw: map<string, Json>, config: Config, drawnSeed: int)
    ensures var r := Parse(raw, config, drawnSeed); r.Some? ==>
      && StringFrom(raw, "image", None, r.value.image)
      && StringFrom(raw, "prompt", Some(PromptDefault), r.value.prompt)
      && IntFrom(raw, "seed", Some(drawnSeed), r.value.seed)
      && IntFrom(raw, "steps", Some(20), r.value.steps)
      && NumberFrom(raw, "cfg_scale", Some(1.0), r.value.cfg_scale)
      && StringFrom(raw, "sampler_name", Some(SamplerNameDefault), r.value.sampler_name)
      && StringFrom(raw, "scheduler", Some(SchedulerDefault), r.value.scheduler)
      && NumberFrom(raw, "denoise", Some(1.0), r.value.denoise)
      && NumberFrom(raw, "guidance", Some(2.5), r.value.guidance)
      && StringFrom(raw, "unet_name", Some(UnetNameDefault), r.value.unet_name)
      && StringFrom(raw, "clip_name1", Some(ClipName1Default), r.value.clip_name1)
      && StringFrom(raw, "clip_name2", Some(ClipName2Default), r.value.clip_name2)
      && StringFrom(raw, "vae_name", Some(VaeNameDefault), r.value.vae_name)
      && StringFrom(raw, "face_detection_model", Some(FaceDetectionModelDefault), r.value.face_detection_model)
      && StringFrom(raw, "face_restore_model", Some(FaceRestoreModelDefault), r.value.face_restore_model)
      && NumberFrom(raw, "face_restore_visibility", Some(1.0), r.value.face_restore_visibility)
      && IntFrom(raw, "face_restore_take_count", Some(10), r.value.face_restore_take_count)
      && NumberFrom(raw, "codeformer_weight", Some(0.5), r.value.codeformer_weight)
      && StringFrom(raw, "lora_1_name", Some(Lora1NameDefault), r.value.lora_1_name)
      && NumberFrom(raw, "lora_1_strength", Some(1.0), r.value.lora_1_strength)
      && StringFrom(raw, "lora_2_name", Some(Lora2NameDefault), r.value.lora_2_name)
      && NumberFrom(raw, "lora_2_strength", Some(1.0), r.value.lora_2_strength)
      && StringFrom(raw, "lora_3_name", Some(Lora3NameDefault), r.value.lora_3_name)
      && NumberFrom(raw, "lora_3_strength", Some(1.0), r.value.lora_3_strength)
      && StringFrom(raw, "lora_4_name", Some(Lora4NameDefault), r.value.lora_4_name)
      && NumberFrom(raw, "lora_4_strength", Some(1.0), r.value.lora_4_strength)
      && StringFrom(raw, "lora_5_name", Some(Lora5NameDefault), r.value.lora_5_name)
      && NumberFrom(raw, "lora_5_strength", Some(1.0), r.value.lora_5_strength)
      && StringFrom(raw, "lora_6_name", Some(Lora6NameDefault), r.value.lora_6_name)
      && NumberFrom(raw, "lora_6_strength", Some(1.0), r.value.lora_6_strength)
      && StringFrom(raw, "lora_7_name", Some(Lora7NameDefault), r.value.lora_7_name)
      && NumberFrom(raw, "lora_7_strength", Some(1.0), r.value.lora_7_strength)
      && StringFrom(raw, "lora_8_name", Some(Lora8NameDefault), r.value.lora_8_name)
      && NumberFrom(raw, "lora_8_strength", Some(1.0), r.value.lora_8_strength)
      && StringFrom(raw, "lora_9_name", Some(Lora9NameDefault), r.value.lora_9_name)
      && NumberFrom(raw, "lora_9_strength", Some(1.0), r.value.lora_9_strength)
      && StringFrom(raw, "lora_10_name", Some(Lora10NameDefault), r.value.lora_10_name)
      && NumberFrom(raw, "lora_10_strength", Some(1.0), r.value.lora_10_strength)
  {
    ReadStringSpec(raw, "image", None);
    ReadStringSpec(raw, "prompt", Some(PromptDefault));
    ReadIntSpec(raw, "seed", Some(drawnSeed), None, None);
    ReadIntSpec(raw, "steps", Some(20), Some(1), Some(100));
    ReadNumberSpec(raw, "cfg_scale", Some(1.0), Some(0.0), Some(20.0));
    ReadEnumSpec(raw, "sampler_name", config.samplers, Some(SamplerNameDefault));
    ReadEnumSpec(raw, "scheduler", config.schedulers, Some(SchedulerDefault));
    ReadNumberSpec(raw, "denoise", Some(1.0), Some(0.0), Some(1.0));
    ReadNumberSpec(raw, "guidance", Some(2.5), None, None);
    ReadStringSpec(raw, "unet_name", Some(UnetNameDefault));
    ReadStringSpec(raw, "clip_name1", Some(ClipName1Default));
    ReadStringSpec(raw, "clip_name2", Some(ClipName2Default));
    ReadStringSpec(raw, "vae_name", Some(VaeNameDefault));
    ReadStringSpec(raw, "face_detection_model", Some(FaceDetectionModelDefault));
    ReadStringSpec(raw, "face_restore_model", Some(FaceRestoreModelDefault));
    ReadNumberSpec(raw, "face_restore_visibility", Some(1.0), Some(0.0), Some(1.0));
    ReadIntSpec(raw, "face_restore_take_count", Some(10), None, None);
    ReadNumberSpec(raw, "codeformer_weight", Some(0.5), Some(0.0), Some(1.0));
    ReadStringSpec(raw, "lora_1_name", Some(Lora1NameDefault));
    ReadNumberSpec(raw, "lora_1_strength", Some(1.0), None, None);
    ReadStringSpec(raw, "lora_2_name", Some(Lora2NameDefault));
    ReadNumberSpec(raw, "lora_2_strength", Some(1.0), None, None);
    ReadStringSpec(raw, "lora_3_name", Some(Lora3NameDefault));
    ReadNumberSpec(raw, "lora_3_strength", Some(1.0), None, None);
    ReadStringSpec(raw, "lora_4_name", Some(Lora4NameDefault));
    ReadNumberSpec(raw, "lora_4_strength", Some(1.0), None, None);
    ReadStringSpec(raw, "lora_5_name", Some(Lora5NameDefault));
    ReadNumberSpec(raw, "lora_5_strength", Some(1.0), None, None);
    ReadStringSpec(raw, "lora_6_name", Some(Lora6NameDefault));
    ReadNumberSpec(raw, "lora_6_strength", Some(1.0), None, None);
    ReadStringSpec(raw, "lora_7_name", Some(Lora7NameDefault));
    ReadNumberSpec(raw, "lora_7_strength", Some(1.0), None, None);
    ReadStringSpec(raw, "lora_8_name", Some(Lora8NameDefault));
    ReadNumberSpec(raw, "lora_8_strength", Some(1.0), None, None);
    ReadStringSpec(raw, "lora_9_name", Some(Lora9NameDefault));
    ReadNumberSpec(raw, "lora_9_strength", Some(1.0), None, None);
    ReadStringSpec(raw, "lora_10_name", Some(Lora10NameDefault));
    ReadNumberSpec(raw, "lora_10_strength", Some(1.0), None, None);
  }

  /** Every key `RequestSchema` declares passes its check; a key without a default must be present. */
  predicate KeysPass(raw: map<string, Json>, config: Config, drawnSeed: int) {
    && StringPasses(raw, "image", None)
    && StringPasses(raw, "prompt", Some(PromptDefault))
    && IntPasses(raw, "seed", Some(drawnSeed), None, None)
    && IntPasses(raw, "steps", Some(20), Some(1), Some(100))
    && NumberPasses(raw, "cfg_scale", Some(1.0), Some(0.0), Some(20.0))
    && EnumPasses(raw, "sampler_name", config.samplers, Some(SamplerNameDefault))
    && EnumPasses(raw, "scheduler", config.schedulers, Some(SchedulerDefault))
    && NumberPasses(raw, "denoise", Some(1.0), Some(0.0), Some(1.0))
    && NumberPasses(raw, "guidance", Some(2.5), None, None)
    && StringPasses(raw, "unet_name", Some(UnetNameDefault))
    && StringPasses(raw, "clip_name1", Some(ClipName1Default))
    && StringPasses(raw, "clip_name2", Some(ClipName2Default))
    && StringPasses(raw, "vae_name", Some(VaeNameDefault))
    && StringPasses(raw, "face_detection_model", Some(FaceDetectionModelDefault))
    && StringPasses(raw, "face_restore_model", Some(FaceRestoreModelDefault))
    && NumberPasses(raw, "face_restore_visibility", Some(1.0), Some(0.0), Some(1.0))
    && IntPasses(raw, "face_restore_take_count", Some(10), None, None)
    && NumberPasses(raw, "codeformer_weight", Some(0.5), Some(0.0), Some(1.0))
    && StringPasses(raw, "lora_1_name", Some(Lora1NameDefault))
    && NumberPasses(raw, "lora_1_strength", Some(1.0), None, None)
    && StringPasses(raw, "lora_2_name", Some(Lora2NameDefault))
    && NumberPasses(raw, "lora_2_strength", Some(1.0), None, None)
    && StringPasses(raw, "lora_3_name", Some(Lora3NameDefault))
    && NumberPasses(raw, "lora_3_strength", Some(1.0), None, None)
    && StringPasses(raw, "lora_4_name", Some(Lora4NameDefault))
    && NumberPasses(raw, "lora_4_strength", Some(1.0), None, None)
    && StringPasses(raw, "lora_5_name", Some(Lora5NameDefault))
    && NumberPasses(raw, "lora_5_strength", Some(1.0), None, None)
    && StringPasses(raw, "lora_6_name", Some(Lora6NameDefault))
    && NumberPasses(raw, "lora_6_strength", Some(1.0), None, None)
    && StringPasses(raw, "lora_7_name", Some(Lora7NameDefault))
    && NumberPasses(raw, "lora_7_strength", Some(1.0), None, None)
    && StringPasses(raw, "lora_8_name", Some(Lora8NameDefault))
    && NumberPasses(raw, "lora_8_strength", Some(1.0), None, None)
    && StringPasses(raw, "lora_9_name", Some(Lora9NameDefault))
    && NumberPasses(raw, "lora_9_strength", Some(1.0), None, None)
    && StringPasses(raw, "lora_10_name", Some(Lora10NameDefault))
    && NumberPasses(raw, "lora_10_strength", Some(1.0), None, None)
  }

  /** A request `RequestSchema` accepts passes every key check. */
  lemma AcceptedKeysPass(raw: map<string, Json>, config: Config, drawnSeed: int)
    requires Parse(raw, config, drawnSeed).Some?
    ensures KeysPass(raw, config, drawnSeed)
  {
    ReadStringSpec(raw, "image", None);
    ReadStringSpec(raw, "prompt", Some(PromptDefault));
    ReadIntSpec(raw, "seed", Some(drawnSeed), None, None);
    ReadIntSpec(raw, "steps", Some(20), Some(1), Some(100));
    ReadNumberSpec(raw, "cfg_scale", Some(1.0), Some(0.0), Some(20.0));
    ReadEnumSpec(raw, "sampler_name", config.samplers, Some(SamplerNameDefault));
    ReadEnumSpec(raw, "scheduler", config.schedulers, Some(SchedulerDefault));
    ReadNumberSpec(raw, "denoise", Some(1.0), Some(0.0), Some(1.0));
    ReadNumberSpec(raw, "guidance", Some(2.5), None, None);
    ReadStringSpec(raw, "unet_name", Some(UnetNameDefault));
    ReadStringSpec(raw, "clip_name1", Some(ClipName1Default));
    ReadStringSpec(raw, "clip_name2", Some(ClipName2Default));
    ReadStringSpec(raw, "vae_name", Some(VaeNameDefault));
    ReadStringSpec(raw, "face_detection_model", Some(FaceDetectionModelDefault));
    ReadStringSpec(raw, "face_restore_model", Some(FaceRestoreModelDefault));
    ReadNumberSpec(raw, "face_restore_visibility", Some(1.0), Some(0.0), Some(1.0));
    ReadIntSpec(raw, "face_restore_take_count", Some(10), None, None);
    ReadNumberSpec(raw, "codeformer_weight", Some(0.5), Some(0.0), Some(1.0));
    ReadStringSpec(raw, "lora_1_name", Some(Lora1NameDefault));
    ReadNumberSpec(raw, "lora_1_strength", Some(1.0), None, None);
    ReadStringSpec(raw, "lora_2_name", Some(Lora2NameDefault));
    ReadNumberSpec(raw, "lora_2_strength", Some(1.0), None, None);
    ReadStringSpec(raw, "lora_3_name", Some(Lora3NameDefault));
    ReadNumberSpec(raw, "lora_3_strength", Some(1.0), None, None);
    ReadStringSpec(raw, "lora_4_name", Some(Lora4NameDefault));
    ReadNumberSpec(raw, "lora_4_strength", Some(1.0), None, None);
    ReadStringSpec(raw, "lora_5_name", Some(Lora5NameDefault));
    ReadNumberSpec(raw, "lora_5_strength", Some(1.0), None, None);
    ReadStringSpec(raw, "lora_6_name", Some(Lora6NameDefault));
    ReadNumberSpec(raw, "lora_6_strength", Some(1.0), None, None);
    ReadStringSpec(raw, "lora_7_name", Some(Lora7NameDefault));
    ReadNumberSpec(raw, "lora_7_strength", Some(1.0), None, None);
    ReadStringSpec(raw, "lora_8_name", Some(Lora8NameDefault));
    ReadNumberSpec(raw, "lora_8_strength", Some(1.0), None, None);
    ReadStringSpec(raw, "lora_9_name", Some(Lora9NameDefault));
    ReadNumberSpec(raw, "lora_9_strength", Some(1.0), None, None);
    ReadStringSpec(raw, "lora_10_name", Some(Lora10NameDefault));
    ReadNumberSpec(raw, "lora_10_strength", Some(1.0), None, None);
  }

  /** A request that passes every key check is accepted. */
  lemma PassingKeysAccepted(raw: map<string, Json>, config: Config, drawnSeed: int)
    requires KeysPass(raw, config, drawnSeed)
    ensures Parse(raw, config, drawnSeed).Some?
  {
    ReadStringSpec(raw, "image", None);
    ReadStringSpec(raw, "prompt", Some(PromptDefault));
    ReadIntSpec(raw, "seed", Some(drawnSeed), None, None);
    ReadIntSpec(raw, "steps", Some(20), Some(1), Some(100));
    ReadNumberSpec(raw, "cfg_scale", Some(1.0), Some(0.0), Some(20.0));
    ReadEnumSpec(raw, "sampler_name", config.samplers, Some(SamplerNameDefault));
    ReadEnumSpec(raw, "scheduler", config.schedulers, Some(SchedulerDefault));
    ReadNumberSpec(raw, "denoise", Some(1.0), Some(0.0), Some(1.0));
    ReadNumberSpec(raw, "guidance", Some(2.5), None, None);
    ReadStringSpec(raw, "unet_name", Some(UnetNameDefault));
    ReadStringSpec(raw, "clip_name1", Some(ClipName1Default));
    ReadStringSpec(raw, "clip_name2", Some(ClipName2Default));
    ReadStringSpec(raw, "vae_name", Some(VaeNameDefault));
    ReadStringSpec(raw, "face_detection_model", Some(FaceDetectionModelDefault));
    ReadStringSpec(raw, "face_restore_model", Some(FaceRestoreModelDefault));
    ReadNumberSpec(raw, "face_restore_visibility", Some(1.0), Some(0.0), Some(1.0));
    ReadIntSpec(raw, "face_restore_take_count", Some(10), None, None);
    ReadNumberSpec(raw, "codeformer_weight", Some(0.5), Some(0.0), Some(1.0));
    ReadStringSpec(raw, "lora_1_name", Some(Lora1NameDefault));
    ReadNumberSpec(raw, "lora_1_strength", Some(1.0), None, None);
    ReadStringSpec(raw, "lora_2_name", Some(Lora2NameDefault));
    ReadNumberSpec(raw, "lora_2_strength", Some(1.0), None, None);
    ReadStringSpec(raw, "lora_3_name", Some(Lora3NameDefault));
    ReadNumberSpec(raw, "lora_3_strength", Some(1.0), None, None);
    ReadStringSpec(raw, "lora_4_name", Some(Lora4NameDefault));
    ReadNumberSpec(raw, "lora_4_strength", Some(1.0), None, None);
    ReadStringSpec(raw, "lora_5_name", Some(Lora5NameDefault));
    ReadNumberSpec(raw, "lora_5_strength", Some(1.0), None, None);
    ReadStringSpec(raw, "lora_6_name", Some(Lora6NameDefault));
    ReadNumberSpec(raw, "lora_6_strength", Some(1.0), None, None);
    ReadStringSpec(raw, "lora_7_name", Some(Lora7NameDefault));
    ReadNumberSpec(raw, "lora_7_strength", Some(1.0), None, None);
    ReadStringSpec(raw, "lora_8_name", Some(Lora8NameDefault));
    ReadNumberSpec(raw, "lora_8_strength", Some(1.0), None, None);
    ReadStringSpec(raw, "lora_9_name", Some(Lora9NameDefault));
    ReadNumberSpec(raw, "lora_9_strength", Some(1.0), None, None);
    ReadStringSpec(raw, "lora_10_name", Some(Lora10NameDefault));
    ReadNumberSpec(raw, "lora_10_strength", Some(1.0), None, None);
  }

  /**
   * `RequestSchema` accepts a request exactly when every declared key passes its check: the
   * declared JSON type, the bounds, `.int()` and the enum, with a missing key taking its
   * default and a key without a default required.
   */
  lemma ParseAccepts(raw: map<string, Json>, config: Config, drawnSeed: int)
    ensures Parse(raw, config, drawnSeed).Some? <==> KeysPass(raw, config, drawnSeed)
  {
    if Parse(raw, config, drawnSeed).Some? {
      AcceptedKeysPass(raw, config, drawnSeed);
    }
    if KeysPass(raw, config, drawnSeed) {
      PassingKeysAccepted(raw, config, drawnSeed);
    }
  }

}

/** `generateWorkflow` of api-workflows/kontext_dev.ts as a prompt graph. */
module KontextDev {
  import opened Wrappers
  import opened ComfyGraph
  import opened KontextDevRequest

  /** The keys of the prompt's nodes. */
  const Keys: set<NodeId> := {6, 8, 31, 35, 37, 38, 39, 42, 124, 135, 136, 142, 146, 177, 190, 191, 192, 193, 194, 195, 197, 200, 201, 202}

  /**
   * A topological rank: each node links only to nodes of lower rank. Written as a search
   * over the sorted keys, so that evaluating it at one key takes a few comparisons.
   */
  function Rank(k: NodeId): nat {
    if k < 146 then
      if k < 39 then
        if k < 35 then
          if k < 8 then
            5
          else
            if k < 31 then
              9
            else
              8
        else
          if k < 37 then
            7
          else
            0
      else
        if k < 135 then
          if k < 42 then
            0
          else
            if k < 124 then
              2
            else
              3
        else
          if k < 136 then
            6
          else
            if k < 142 then
              12
            else
              0
    else
      if k < 194 then
        if k < 191 then
          if k < 177 then
            1
          else
            if k < 190 then
              6
            else
              1
        else
          if k < 192 then
            0
          else
            if k < 193 then
              1
            else
              3
      else
        if k < 200 then
          if k < 195 then
            4
          else
            if k < 197 then
              2
            else
              0
        else
          if k < 201 then
            11
          else
            if k < 202 then
              4
            else
              10
  }

  /** Node "6" (lines 122-128). */
  function Node6(input: Request): (n: Node)
    ensures LinksWithin(n, Keys) && LinksBelow(n, Rank(6), Rank)
    ensures Defined(n)
  {
    Node("CLIPTextEncode", map[
      "text" := Ref(194, 0),
      "clip" := Ref(190, 1)])
  }

  /** Node "8" (lines 129-135). */
  function Node8(input: Request): (n: Node)
    ensures LinksWithin(n, Keys) && LinksBelow(n, Rank(8), Rank)
    ensures Defined(n)
  {
    Node("VAEDecode", map[
      "samples" := Ref(31, 0),
      "vae" := Ref(39, 0)])
  }

  /** Node "31" (lines 136-150). */
  function Node31(input: Request): (n: Node)
    ensures LinksWithin(n, Keys) && LinksBelow(n, Rank(31), Rank)
    ensures Defined(n)
  {
    Node("KSampler", map[
      "steps" := N(input.steps),
      "cfg" := R(input.cfg_scale),
      "sampler_name" := S(input.sampler_name),
      "scheduler" := S(input.scheduler),
      "denoise" := R(input.denoise),
      "model" := Ref(190, 0),
      "positive" := Ref(35, 0),
      "negative" := Ref(135, 0),
      "latent_image" := Ref(124, 0),
      "seed" := Ref(197, 3)])
  }

  /** Node "35" (lines 151-157). */
  function Node35(input: Request): (n: Node)
    ensures LinksWithin(n, Keys) && LinksBelow(n, Rank(35), Rank)
    ensures Defined(n)
  {
    Node("FluxGuidance", map[
      "guidance" := R(input.guidance),
      "conditioning" := Ref(177, 0)])
  }

  /** Node "37" (lines 158-164). */
  function Node37(input: Request): (n: Node)
    ensures LinksWithin(n, Keys) && LinksBelow(n, Rank(37), Rank)
    ensures Defined(n)
  {
    Node("UNETLoader", map[
      "unet_name" := S(input.unet_name),
      "weight_dtype" := S("default")])
  }

  /** Node "38" (lines 165-173). */
  function Node38(input: Request): (n: Node)
    ensures LinksWithin(n, Keys) && LinksBelow(n, Rank(38), Rank)
    ensures Defined(n)
  {
    Node("DualCLIPLoader", map[
      "clip_name1" := S(input.clip_name1),
      "clip_name2" := S(input.clip_name2),
      "type" := S("flux"),
      "device" := S("default")])
  }

  /** Node "39" (lines 174-179). */
  function Node39(input: Request): (n: Node)
    ensures LinksWithin(n, Keys) && LinksBelow(n, Rank(39), Rank)
    ensures Defined(n)
  {
    Node("VAELoader", map[
      "vae_name" := S(input.vae_name)])
  }

  /** Node "42" (lines 180-185). */
  function Node42(input: Request): (n: Node)
    ensures LinksWithin(n, Keys) && LinksBelow(n, Rank(42), Rank)
    ensures Defined(n)
  {
    Node("FluxKontextImageScale", map[
      "image" := Ref(146, 0)])
  }

  /** Node "124" (lines 186-192). */
  function Node124(input: Request): (n: Node)
    ensures LinksWithin(n, Keys) && LinksBelow(n, Rank(124), Rank)
    ensures Defined(n)
  {
    Node("VAEEncode", map[
      "pixels" := Ref(42, 0),
      "vae" := Ref(39, 0)])
  }

  /** Node "135" (lines 193-198). */
  function Node135(input: Request): (n: Node)
    ensures LinksWithin(n, Keys) && LinksBelow(n, Rank(135), Rank)
    ensures Defined(n)
  {
    Node("ConditioningZeroOut", map[
      "conditioning" := Ref(6, 0)])
  }

  /** Node "136" (lines 199-205). */
  function Node136(input: Request): (n: Node)
    ensures LinksWithin(n, Keys) && LinksBelow(n, Rank(136), Rank)
    ensures Defined(n)
  {
    Node("SaveImage", map[
      "filename_prefix" := S("ComfyUI"),
      "images" := Ref(200, 0)])
  }

  /** Node "142" (lines 206-212). */
  function Node142(input: Request): (n: Node)
    ensures LinksWithin(n, Keys) && LinksBelow(n, Rank(142), Rank)
    ensures Defined(n)
  {
    Node("LoadImage", map[
      "image" := S(input.image),
      "choose file to upload" := S("image")])
  }

  /** Node "146" (lines 213-222). */
  function Node146(input: Request): (n: Node)
    ensures LinksWithin(n, Keys) && LinksBelow(n, Rank(146), Rank)
    ensures Defined(n)
  {
    Node("ImageStitch", map[
      "direction" := S("right"),
      "match_image_size" := B(true),
      "spacing_width" := N(0),
      "spacing_color" := S("white"),
      "image1" := Ref(142, 0)])
  }

  /** Node "177" (lines 223-229). */
  function Node177(input: Request): (n: Node)
    ensures LinksWithin(n, Keys) && LinksBelow(n, Rank(177), Rank)
    ensures Defined(n)
  {
    Node("ReferenceLatent", map[
      "conditioning" := Ref(6, 0),
      "latent" := Ref(124, 0)])
  }

  /** Node "190" (lines 230-256). */
  function Node190(input: Request): (n: Node)
    ensures LinksWithin(n, Keys) && LinksBelow(n, Rank(190), Rank)
    ensures Defined(n)
  {
    Node("TooManyLoras", map[
      "lora_01" := S(input.lora_1_name),
      "strength_01" := R(input.lora_1_strength),
      "lora_02" := S(input.lora_2_name),
      "strength_02" := R(input.lora_2_strength),
      "lora_03" := S(input.lora_3_name),
      "strength_03" := R(input.lora_3_strength),
      "lora_04" := S(input.lora_4_name),
      "strength_04" := R(input.lora_4_strength),
      "lora_05" := S(input.lora_5_name),
      "strength_05" := R(input.lora_5_strength),
      "lora_06" := S(input.lora_6_name),
      "strength_06" := R(input.lora_6_strength),
      "lora_07" := S(input.lora_7_name),
      "strength_07" := R(input.lora_7_strength),
      "lora_08" := S(input.lora_8_name),
      "strength_08" := R(input.lora_8_strength),
      "lora_09" := S(input.lora_9_name),
      "strength_09" := R(input.lora_9_strength),
      "lora_10" := S(input.lora_10_name),
      "strength_10" := R(input.lora_10_strength),
      "model" := Ref(37, 0),
      "clip" := Ref(38, 0)])
  }

  /** Node "191" (lines 257-262). */
  function Node191(input: Request): (n: Node)
    ensures LinksWithin(n, Keys) && LinksBelow(n, Rank(191), Rank)
    ensures Defined(n)
  {
    Node("Text Multiline", map[
      "text" := S(input.prompt)])
  }

  /** Node "192" (lines 263-272). */
  function Node192(input: Request): (n: Node)
    ensures LinksWithin(n, Keys) && LinksBelow(n, Rank(192), Rank)
    ensures Defined(n)
  {
    Node("TextSplitByDelimiter", map[
      "delimiter" := S("==="),
      "start_index" := N(0),
      "skip_every" := N(0),
      "max_count" := N(8),
      "text" := Ref(191, 0)])
  }

  /** Node "193" (lines 273-284). */
  function Node193(input: Request): (n: Node)
    ensures LinksWithin(n, Keys) && LinksBelow(n, Rank(193), Rank)
    ensures Defined(n)
  {
    Node("RegexReplace", map[
      "regex_pattern" := S("[\r\n]"),
      "replace" := S(""),
      "case_insensitive" := B(true),
      "multiline" := B(false),
      "dotall" := B(false),
      "count" := N(0),
      "string" := Ref(195, 0)])
  }

  /** Node "194" (lines 285-296). */
  function Node194(input: Request): (n: Node)
    ensures LinksWithin(n, Keys) && LinksBelow(n, Rank(194), Rank)
    ensures Defined(n)
  {
    Node("RegexReplace", map[
      "regex_pattern" := S("\\<.*\\>"),
      "replace" := S(""),
      "case_insensitive" := B(true),
      "multiline" := B(false),
      "dotall" := B(false),
      "count" := N(0),
      "string" := Ref(193, 0)])
  }

  /** Node "195" (lines 297-304). */
  function Node195(input: Request): (n: Node)
    ensures LinksWithin(n, Keys) && LinksBelow(n, Rank(195), Rank)
    ensures Defined(n)
  {
    Node("Stable Wildcards", map[
      "version" := N(1),
      "prompt" := Ref(192, 0),
      "seed" := Ref(197, 3)])
  }

  /** Node "197" (lines 305-310). */
  function Node197(input: Request): (n: Node)
    ensures LinksWithin(n, Keys) && LinksBelow(n, Rank(197), Rank)
    ensures Defined(n)
  {
    Node("Seed", map[
      "seed" := N(input.seed)])
  }

  /** Node "200" (lines 311-318). */
  function Node200(input: Request): (n: Node)
    ensures LinksWithin(n, Keys) && LinksBelow(n, Rank(200), Rank)
    ensures Defined(n)
  {
    Node("ImpactConditionalBranch", map[
      "cond" := Ref(201, 0),
      "tt_value" := Ref(202, 0),
      "ff_value" := Ref(8, 0)])
  }

  /** Node "201" (lines 319-326). */
  function Node201(input: Request): (n: Node)
    ensures LinksWithin(n, Keys) && LinksBelow(n, Rank(201), Rank)
    ensures Defined(n)
  {
    Node("Text Contains", map[
      "sub_text" := S("<restoreface>"),
      "case_insensitive" := B(true),
      "text" := Ref(193, 0)])
  }

  /** Node "202" (lines 327-341). */
  function Node202(input: Request): (n: Node)
    ensures LinksWithin(n, Keys) && LinksBelow(n, Rank(202), Rank)
    ensures Defined(n)
  {
    Node("ReActorRestoreFaceAdvanced", map[
      "facedetection" := S(input.face_detection_model),
      "model" := S(input.face_restore_model),
      "visibility" := R(input.face_restore_visibility),
      "codeformer_weight" := R(input.codeformer_weight),
      "face_selection" := S("all"),
      "sort_by" := S("area"),
      "reverse_order" := B(false),
      "take_start" := N(0),
      "take_count" := N(input.face_restore_take_count),
      "image" := Ref(8, 0)])
  }

  /** The node under key `k`; keys outside `Keys` get an empty placeholder that `Generate` never uses. */
  function NodeAt(input: Request, k: NodeId): Node {
    match k
    case 6 => Node6(input)
    case 8 => Node8(input)
    case 31 => Node31(input)
    case 35 => Node35(input)
    case 37 => Node37(input)
    case 38 => Node38(input)
    case 39 => Node39(input)
    case 42 => Node42(input)
    case 124 => Node124(input)
    case 135 => Node135(input)
    case 136 => Node136(input)
    case 142 => Node142(input)
    case 146 => Node146(input)
    case 177 => Node177(input)
    case 190 => Node190(input)
    case 191 => Node191(input)
    case 192 => Node192(input)
    case 193 => Node193(input)
    case 194 => Node194(input)
    case 195 => Node195(input)
    case 197 => Node197(input)
    case 200 => Node200(input)
    case 201 => Node201(input)
    case 202 => Node202(input)
    case _ => Node("", map[])
  }

  /** `generateWorkflow(input)` (lines 120-344). */
  function Generate(input: Request): Graph
  {
    map k | k in Keys :: NodeAt(input, k)
  }

  /** The prompt has a node under exactly the keys of `Keys`, and `NodeAt(input, k)` is that node. */
  lemma GenerateAt(input: Request, k: NodeId)
    ensures k in Generate(input) <==> k in Keys
    ensures k in Keys ==> Generate(input)[k] == NodeAt(input, k)
  {
  }

  /** Each node links only to nodes of the prompt of lower rank, and reads no undefined value. */
  lemma NodeShape(input: Request, k: NodeId)
    requires k in Keys
    ensures LinksWithin(NodeAt(input, k), Keys) && LinksBelow(NodeAt(input, k), Rank(k), Rank)
    ensures Defined(NodeAt(input, k))
  {
  }

  /** `Rank` ranks the prompt, and no input of the prompt is undefined. */
  lemma WellFormed(input: Request)
    ensures RankedBy(Generate(input), Rank)
    ensures AllDefined(Generate(input))
  {
    forall k | k in Keys
      ensures LinksWithin(NodeAt(input, k), Keys) && LinksBelow(NodeAt(input, k), Rank(k), Rank)
      ensures Defined(NodeAt(input, k))
    {
      NodeShape(input, k);
    }
  }

  /** Every link of the prompt names one of its nodes, and no chain of links is circular. */
  lemma ClosedAndAcyclic(input: Request)
    ensures Closed(Generate(input)) && Acyclic(Generate(input))
  {
    WellFormed(input);
    RankedIsClosedAndAcyclic(Generate(input), Rank);
  }
}
