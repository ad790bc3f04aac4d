/** `RequestSchema` of api-workflows/nunchaku_qwen_edit_sam2.ts: the request fields, their bounds and defaults. */
module NunchakuQwenEditSam2Request {
  import opened Wrappers
  import opened JsonValue
  import opened Zod

  /** A request as `RequestSchema` (lines 6-226) returns it, every default filled in. */
  datatype Request = Request(
    image: string,
    image_2: string,
    image_3: string,
    prompt: string,
    seed: real,
    steps: real,
    cfg_scale: real,
    sampler_name: string,
    scheduler: string,
    denoise: real,
    aura_flow_shift: real,
    cfg_norm_strength: real,
    megapixels: real,
    upscaler_model_name: string,
    sam_prompt: string,
    sam2_model: string,
    dino_model: string,
    sam3_model: string,
    sam_threshold: real,
    sam_mask_blur: real,
    sam_mask_offset: real,
    sam_invert_output: bool,
    sam_background_color: string,
    mask_fix_erode_dilate: real,
    mask_fix_fill_holes: real,
    mask_fix_remove_isolated: real,
    mask_fix_smooth: real,
    mask_fix_blur: real,
    rmbg_model: string,
    rmbg_sensitivity: real,
    rmbg_process_res: real,
    rmbg_mask_blur: real,
    rmbg_mask_offset: real,
    rmbg_refine_foreground: bool,
    face_detection_model: string,
    face_restore_model: string,
    face_restore_visibility: real,
    face_restore_take_count: real,
    output_downscale: real,
    codeformer_weight: real,
    unet_name: string,
    cpu_offload: string,
    num_blocks_on_gpu: real,
    use_pin_memory: string,
    clip_name: string,
    use_vae_utils_loader: bool,
    vae_name: string,
    vae_upscale: real,
    vae_tile: bool,
    vae_tile_size: real,
    vae_overlap: real,
    lora_cpu_offload: string,
    lora_1_name: string,
    lora_1_strength: real,
    lora_2_name: string,
    lora_2_strength: real,
    lora_3_name: string,
    lora_3_strength: real,
    lora_4_name: string,
    lora_4_strength: real,
    lora_5_name: string,
    lora_5_strength: real,
    lora_6_name: string,
    lora_6_strength: real,
    lora_7_name: string,
    lora_7_strength: real,
    lora_8_name: string,
    lora_8_strength: real,
    lora_9_name: string,
    lora_9_strength: real,
    lora_10_name: string,
    lora_10_strength: real,
    mask_enhancer_sensitivity: Option<real>,
    mask_enhancer_blur: Option<real>,
    mask_enhancer_offset: Option<real>,
    mask_enhancer_smooth: Option<real>,
    mask_enhancer_fill_holes: Option<bool>,
    mask_enhancer_invert_output: Option<bool>)

  /** The bounds and enum memberships that `RequestSchema` checks. */
  predicate Valid(input: Request, config: Config) {
    && 1.0 <= input.steps <= 100.0
    && 0.0 <= input.cfg_scale <= 20.0
    && input.sampler_name in config.samplers
    && input.scheduler in config.schedulers
    && 0.0 <= input.denoise <= 1.0
    && 0.0 <= input.face_restore_visibility <= 1.0
    && 0.0 <= input.codeformer_weight <= 1.0
    && 1.0 <= input.num_blocks_on_gpu <= 200.0
  }

  /**
   * The fields that node "331" reads although `RequestSchema` does not declare them all
   * carry a value.
   */
  predicate MaskEnhancerGiven(input: Request) {
    && input.mask_enhancer_sensitivity.Some?
    && input.mask_enhancer_blur.Some?
    && input.mask_enhancer_offset.Some?
    && input.mask_enhancer_smooth.Some?
    && input.mask_enhancer_fill_holes.Some?
    && input.mask_enhancer_invert_output.Some?
  }

  // The string defaults that `RequestSchema` declares with `.default(...)`.
  const Image2Default := ""
  const Image3Default := ""
  const PromptDefault := "remove black dots. <sam>\n===\nshe wears trending clothes."
  const SamplerNameDefault := "euler"
  const SchedulerDefault := "simple"
  const UpscalerModelNameDefault := "RealESRGAN_x4plus.safetensors"
  const SamPromptDefault := "clothes"
  const Sam2ModelDefault := "sam2.1_hiera_large"
  const DinoModelDefault := "GroundingDINO_SwinB (938MB)"
  const Sam3ModelDefault := "sam3"
  const SamBackgroundColorDefault := "#000000"
  const RmbgModelDefault := "RMBG-2.0"
  const FaceDetectionModelDefault := "retinaface_resnet50"
  const FaceRestoreModelDefault := "codeformer.pth"
  const UnetNameDefault := "svdq-int4_r32-qwen-image-edit-2509-lightningv2.0-4steps.safetensors"
  const CpuOffloadDefault := "auto"
  const UsePinMemoryDefault := "disable"
  const ClipNameDefault := "qwen_2.5_vl_7b_fp8_scaled.safetensors"
  const VaeNameDefault := "Wan2.1_VAE_upscale2x_imageonly_real_v1.safetensors"
  const LoraCpuOffloadDefault := "auto"
  const Lora1NameDefault := "qwen-image-edit-2509-multi-angles.safetensors"
  const Lora2NameDefault := "None"
  const Lora3NameDefault := "None"
  const Lora4NameDefault := "None"
  const Lora5NameDefault := "None"
  const Lora6NameDefault := "None"
  const Lora7NameDefault := "None"
  const Lora8NameDefault := "None"
  const Lora9NameDefault := "None"
  const Lora10NameDefault := "None"

  /**
   * `RequestSchema.parse(raw)`, or `None` where zod throws. `drawnSeed` stands for the
   * random default of `seed`.
   */
  function Parse(raw: map<string, Json>, config: Config, drawnSeed: int): Option<Request>
  {
    var image := ReadString(raw, "image", None);
    var image_2 := ReadString(raw, "image_2", Some(Image2Default));
    var image_3 := ReadString(raw, "image_3", Some(Image3Default));
    var prompt := ReadString(raw, "prompt", Some(PromptDefault));
    var seed := ReadNumber(raw, "seed", Some(drawnSeed as real), None, None);
    var steps := ReadNumber(raw, "steps", Some(4.0), Some(1.0), Some(100.0));
    var cfg_scale := ReadNumber(raw, "cfg_scale", Some(1.0), Some(0.0), Some(20.0));
    var sampler_name := ReadEnum(raw, "sampler_name", config.samplers, Some(SamplerNameDefault));
    var scheduler := ReadEnum(raw, "scheduler", config.schedulers, Some(SchedulerDefault));
    var denoise := ReadNumber(raw, "denoise", Some(1.0), Some(0.0), Some(1.0));
    var aura_flow_shift := ReadNumber(raw, "aura_flow_shift", Some(3.0), None, None);
    var cfg_norm_strength := ReadNumber(raw, "cfg_norm_strength", Some(1.0), None, None);
    var megapixels := ReadNumber(raw, "megapixels", Some(1.0), None, None);
    var upscaler_model_name := ReadString(raw, "upscaler_model_name", Some(UpscalerModelNameDefault));
    var sam_prompt := ReadString(raw, "sam_prompt", Some(SamPromptDefault));
    var sam2_model := ReadString(raw, "sam2_model", Some(Sam2ModelDefault));
    var dino_model := ReadString(raw, "dino_model", Some(DinoModelDefault));
    var sam3_model := ReadString(raw, "sam3_model", Some(Sam3ModelDefault));
    var sam_threshold := ReadNumber(raw, "sam_threshold", Some(0.35), None, None);
    var sam_mask_blur := ReadNumber(raw, "sam_mask_blur", Some(0.0), None, None);
    var sam_mask_offset := ReadNumber(raw, "sam_mask_offset", Some(0.0), None, None);
    var sam_invert_output := ReadBool(raw, "sam_invert_output", Some(false));
    var sam_background_color := ReadString(raw, "sam_background_color", Some(SamBackgroundColorDefault));
    var mask_fix_erode_dilate := ReadNumber(raw, "mask_fix_erode_dilate", Some(2.0), None, None);
    var mask_fix_fill_holes := ReadNumber(raw, "mask_fix_fill_holes", Some(20.0), None, None);
    var mask_fix_remove_isolated := ReadNumber(raw, "mask_fix_remove_isolated", Some(0.0), None, None);
    var mask_fix_smooth := ReadNumber(raw, "mask_fix_smooth", Some(0.0), None, None);
    var mask_fix_blur := ReadNumber(raw, "mask_fix_blur", Some(0.0), None, None);
    var rmbg_model := ReadString(raw, "rmbg_model", Some(RmbgModelDefault));
    var rmbg_sensitivity := ReadNumber(raw, "rmbg_sensitivity", Some(1.0), None, None);
    var rmbg_process_res := ReadNumber(raw, "rmbg_process_res", Some(1120.0), None, None);
    var rmbg_mask_blur := ReadNumber(raw, "rmbg_mask_blur", Some(0.0), None, None);
    var rmbg_mask_offset := ReadNumber(raw, "rmbg_mask_offset", Some(0.0), None, None);
    var rmbg_refine_foreground := ReadBool(raw, "rmbg_refine_foreground", Some(false));
    var face_detection_model := ReadString(raw, "face_detection_model", Some(FaceDetectionModelDefault));
    var face_restore_model := ReadString(raw, "face_restore_model", Some(FaceRestoreModelDefault));
    var face_restore_visibility := ReadNumber(raw, "face_restore_visibility", Some(1.0), Some(0.0), Some(1.0));
    var face_restore_take_count := ReadNumber(raw, "face_restore_take_count", Some(10.0), None, None);
    var output_downscale := ReadNumber(raw, "output_downscale", Some(0.5), None, None);
    var codeformer_weight := ReadNumber(raw, "codeformer_weight", Some(0.5), Some(0.0), Some(1.0));
    var unet_name := ReadString(raw, "unet_name", Some(UnetNameDefault));
    var cpu_offload := ReadString(raw, "cpu_offload", Some(CpuOffloadDefault));
    var num_blocks_on_gpu := ReadNumber(raw, "num_blocks_on_gpu", Some(20.0), Some(1.0), Some(200.0));
    var use_pin_memory := ReadString(raw, "use_pin_memory", Some(UsePinMemoryDefault));
    var clip_name := ReadString(raw, "clip_name", Some(ClipNameDefault));
    var use_vae_utils_loader := ReadBool(raw, "use_vae_utils_loader", Some(true));
    var vae_name := ReadString(raw, "vae_name", Some(VaeNameDefault));
    var vae_upscale := ReadNumber(raw, "vae_upscale", Some(2.0), None, None);
    var vae_tile := ReadBool(raw, "vae_tile", Some(false));
    var vae_tile_size := ReadNumber(raw, "vae_tile_size", Some(512.0), None, None);
    var vae_overlap := ReadNumber(raw, "vae_overlap", Some(64.0), None, None);
    var lora_cpu_offload := ReadString(raw, "lora_cpu_offload", Some(LoraCpuOffloadDefault));
    var lora_1_name := ReadString(raw, "lora_1_name", Some(Lora1NameDefault));
    var lora_1_strength := ReadNumber(raw, "lora_1_strength", Some(1.0), None, None);
    var lora_2_name := ReadString(raw, "lora_2_name", Some(Lora2NameDefault));
    var lora_2_strength := ReadNumber(raw, "lora_2_strength", Some(1.0), None, None);
    var lora_3_name := ReadString(raw, "lora_3_name", Some(Lora3NameDefault));
    var lora_3_strength := ReadNumber(raw, "lora_3_strength", Some(1.0), None, None);
    var lora_4_name := ReadString(raw, "lora_4_name", Some(Lora4NameDefault));
    var lora_4_strength := ReadNumber(raw, "lora_4_strength", Some(1.0), None, None);
    var lora_5_name := ReadString(raw, "lora_5_name", Some(Lora5NameDefault));
    var lora_5_strength := ReadNumber(raw, "lora_5_strength", Some(1.0), None, None);
    var lora_6_name := ReadString(raw, "lora_6_name", Some(Lora6NameDefault));
    var lora_6_strength := ReadNumber(raw, "lora_6_strength", Some(1.0), None, None);
    var lora_7_name := ReadString(raw, "lora_7_name", Some(Lora7NameDefault));
    var lora_7_strength := ReadNumber(raw, "lora_7_strength", Some(1.0), None, None);
    var lora_8_name := ReadString(raw, "lora_8_name", Some(Lora8NameDefault));
    var lora_8_strength := ReadNumber(raw, "lora_8_strength", Some(1.0), None, None);
    var lora_9_name := ReadString(raw, "lora_9_name", Some(Lora9NameDefault));
    var lora_9_strength := ReadNumber(raw, "lora_9_strength", Some(1.0), None, None);
    var lora_10_name := ReadString(raw, "lora_10_name", Some(Lora10NameDefault));
    var lora_10_strength := ReadNumber(raw, "lora_10_strength", Some(1.0), None, None);
    if image.Some?
      && image_2.Some?
      && image_3.Some?
      && prompt.Some?
      && seed.Some?
      && steps.Some?
      && cfg_scale.Some?
      && sampler_name.Some?
      && scheduler.Some?
      && denoise.Some?
      && aura_flow_shift.Some?
      && cfg_norm_strength.Some?
      && megapixels.Some?
      && upscaler_model_name.Some?
      && sam_prompt.Some?
      && sam2_model.Some?
      && dino_model.Some?
      && sam3_model.Some?
      && sam_threshold.Some?
      && sam_mask_blur.Some?
      && sam_mask_offset.Some?
      && sam_invert_output.Some?
      && sam_background_color.Some?
      && mask_fix_erode_dilate.Some?
      && mask_fix_fill_holes.Some?
      && mask_fix_remove_isolated.Some?
      && mask_fix_smooth.Some?
      && mask_fix_blur.Some?
      && rmbg_model.Some?
      && rmbg_sensitivity.Some?
      && rmbg_process_res.Some?
      && rmbg_mask_blur.Some?
      && rmbg_mask_offset.Some?
      && rmbg_refine_foreground.Some?
      && face_detection_model.Some?
      && face_restore_model.Some?
      && face_restore_visibility.Some?
      && face_restore_take_count.Some?
      && output_downscale.Some?
      && codeformer_weight.Some?
      && unet_name.Some?
      && cpu_offload.Some?
      && num_blocks_on_gpu.Some?
      && use_pin_memory.Some?
      && clip_name.Some?
      && use_vae_utils_loader.Some?
      && vae_name.Some?
      && vae_upscale.Some?
      && vae_tile.Some?
      && vae_tile_size.Some?
      && vae_overlap.Some?
      && lora_cpu_offload.Some?
      && lora_1_name.Some?
      && lora_1_strength.Some?
      && lora_2_name.Some?
      && lora_2_strength.Some?
      && lora_3_name.Some?
      && lora_3_strength.Some?
      && lora_4_name.Some?
      && lora_4_strength.Some?
      && lora_5_name.Some?
      && lora_5_strength.Some?
      && lora_6_name.Some?
      && lora_6_strength.Some?
      && lora_7_name.Some?
      && lora_7_strength.Some?
      && lora_8_name.Some?
      && lora_8_strength.Some?
      && lora_9_name.Some?
      && lora_9_strength.Some?
      && lora_10_name.Some?
      && lora_10_strength.Some? then
      Some(Request(
        image.value,
        image_2.value,
        image_3.value,
        prompt.value,
        seed.value,
        steps.value,
        cfg_scale.value,
        sampler_name.value,
        scheduler.value,
        denoise.value,
        aura_flow_shift.value,
        cfg_norm_strength.value,
        megapixels.value,
        upscaler_model_name.value,
        sam_prompt.value,
        sam2_model.value,
        dino_model.value,
        sam3_model.value,
        sam_threshold.value,
        sam_mask_blur.value,
        sam_mask_offset.value,
        sam_invert_output.value,
        sam_background_color.value,
        mask_fix_erode_dilate.value,
        mask_fix_fill_holes.value,
        mask_fix_remove_isolated.value,
        mask_fix_smooth.value,
        mask_fix_blur.value,
        rmbg_model.value,
        rmbg_sensitivity.value,
        rmbg_process_res.value,
        rmbg_mask_blur.value,
        rmbg_mask_offset.value,
        rmbg_refine_foreground.value,
        face_detection_model.value,
        face_restore_model.value,
        face_restore_visibility.value,
        face_restore_take_count.value,
        output_downscale.value,
        codeformer_weight.value,
        unet_name.value,
        cpu_offload.value,
        num_blocks_on_gpu.value,
        use_pin_memory.value,
        clip_name.value,
        use_vae_utils_loader.value,
        vae_name.value,
        vae_upscale.value,
        vae_tile.value,
        vae_tile_size.value,
        vae_overlap.value,
        lora_cpu_offload.value,
        lora_1_name.value,
        lora_1_strength.value,
        lora_2_name.value,
        lora_2_strength.value,
        lora_3_name.value,
        lora_3_strength.value,
        lora_4_name.value,
        lora_4_strength.value,
        lora_5_name.value,
        lora_5_strength.value,
        lora_6_name.value,
        lora_6_strength.value,
        lora_7_name.value,
        lora_7_strength.value,
        lora_8_name.value,
        lora_8_strength.value,
        lora_9_name.value,
        lora_9_strength.value,
        lora_10_name.value,
        lora_10_strength.value,
        None,
        None,
        None,
        None,
        None,
        None))
    else
      None
  }

  /** Whatever `RequestSchema` accepts satisfies its bounds and enum memberships. */
  lemma ParsedIsValid(raw: map<string, Json>, config: Config, drawnSeed: int)
    ensures var r := Parse(raw, config, drawnSeed); r.Some? ==> Valid(r.value, config)
  {
  }

  /**
   * An accepted request carries the value the caller sent under every declared key, and the
   * declared default under every key the caller left out.
   */
  lemma ParsedFields(raw: map<string, Json>, config: Config, drawnSeed: int)
    ensures var r := Parse(raw, config, drawnSeed); r.Some? ==>
      && StringFrom(raw, "image", None, r.value.image)
      && StringFrom(raw, "image_2", Some(Image2Default), r.value.image_2)
      && StringFrom(raw, "image_3", Some(Image3Default), r.value.image_3)
      && StringFrom(raw, "prompt", Some(PromptDefault), r.value.prompt)
      && NumberFrom(raw, "seed", Some(drawnSeed as real), r.value.seed)
      && NumberFrom(raw, "steps", Some(4.0), r.value.steps)
      && NumberFrom(raw, "cfg_scale", Some(1.0), r.value.cfg_scale)
      && StringFrom(raw, "sampler_name", Some(SamplerNameDefault), r.value.sampler_name)
      && StringFrom(raw, "scheduler", Some(SchedulerDefault), r.value.scheduler)
      && NumberFrom(raw, "denoise", Some(1.0), r.value.denoise)
      && NumberFrom(raw, "aura_flow_shift", Some(3.0), r.value.aura_flow_shift)
      && NumberFrom(raw, "cfg_norm_strength", Some(1.0), r.value.cfg_norm_strength)
      && NumberFrom(raw, "megapixels", Some(1.0), r.value.megapixels)
      && StringFrom(raw, "upscaler_model_name", Some(UpscalerModelNameDefault), r.value.upscaler_model_name)
      && StringFrom(raw, "sam_prompt", Some(SamPromptDefault), r.value.sam_prompt)
      && StringFrom(raw, "sam2_model", Some(Sam2ModelDefault), r.value.sam2_model)
      && StringFrom(raw, "dino_model", Some(DinoModelDefault), r.value.dino_model)
      && StringFrom(raw, "sam3_model", Some(Sam3ModelDefault), r.value.sam3_model)
      && NumberFrom(raw, "sam_threshold", Some(0.35), r.value.sam_threshold)
      && NumberFrom(raw, "sam_mask_blur", Some(0.0), r.value.sam_mask_blur)
      && NumberFrom(raw, "sam_mask_offset", Some(0.0), r.value.sam_mask_offset)
      && BoolFrom(raw, "sam_invert_output", Some(false), r.value.sam_invert_output)
      && StringFrom(raw, "sam_background_color", Some(SamBackgroundColorDefault), r.value.sam_background_color)
      && NumberFrom(raw, "mask_fix_erode_dilate", Some(2.0), r.value.mask_fix_erode_dilate)
      && NumberFrom(raw, "mask_fix_fill_holes", Some(20.0), r.value.mask_fix_fill_holes)
      && NumberFrom(raw, "mask_fix_remove_isolated", Some(0.0), r.value.mask_fix_remove_isolated)
      && NumberFrom(raw, "mask_fix_smooth", Some(0.0), r.value.mask_fix_smooth)
      && NumberFrom(raw, "mask_fix_blur", Some(0.0), r.value.mask_fix_blur)
      && StringFrom(raw, "rmbg_model", Some(RmbgModelDefault), r.value.rmbg_model)
      && NumberFrom(raw, "rmbg_sensitivity", Some(1.0), r.value.rmbg_sensitivity)
      && NumberFrom(raw, "rmbg_process_res", Some(1120.0), r.value.rmbg_process_res)
      && NumberFrom(raw, "rmbg_mask_blur", Some(0.0), r.value.rmbg_mask_blur)
      && NumberFrom(raw, "rmbg_mask_offset", Some(0.0), r.value.rmbg_mask_offset)
      && BoolFrom(raw, "rmbg_refine_foreground", Some(false), r.value.rmbg_refine_foreground)
      && StringFrom(raw, "face_detection_model", Some(FaceDetectionModelDefault), r.value.face_detection_model)
      && StringFrom(raw, "face_restore_model", Some(FaceRestoreModelDefault), r.value.face_restore_model)
      && NumberFrom(raw, "face_restore_visibility", Some(1.0), r.value.face_restore_visibility)
      && NumberFrom(raw, "face_restore_take_count", Some(10.0), r.value.face_restore_take_count)
      && NumberFrom(raw, "output_downscale", Some(0.5), r.value.output_downscale)
      && NumberFrom(raw, "codeformer_weight", Some(0.5), r.value.codeformer_weight)
      && StringFrom(raw, "unet_name", Some(UnetNameDefault), r.value.unet_name)
      && StringFrom(raw, "cpu_offload", Some(CpuOffloadDefault), r.value.cpu_offload)
      && NumberFrom(raw, "num_blocks_on_gpu", Some(20.0), r.value.num_blocks_on_gpu)
      && StringFrom(raw, "use_pin_memory", Some(UsePinMemoryDefault), r.value.use_pin_memory)
      && StringFrom(raw, "clip_name", Some(ClipNameDefault), r.value.clip_name)
      && BoolFrom(raw, "use_vae_utils_loader", Some(true), r.value.use_vae_utils_loader)
      && StringFrom(raw, "vae_name", Some(VaeNameDefault), r.value.vae_name)
      && NumberFrom(raw, "vae_upscale", Some(2.0), r.value.vae_upscale)
      && BoolFrom(raw, "vae_tile", Some(false), r.value.vae_tile)
      && NumberFrom(raw, "vae_tile_size", Some(512.0), r.value.vae_tile_size)
      && NumberFrom(raw, "vae_overlap", Some(64.0), r.value.vae_overlap)
      && StringFrom(raw, "lora_cpu_offload", Some(LoraCpuOffloadDefault), r.value.lora_cpu_offload)
      && StringFrom(raw, "lora_1_name", Some(Lora1NameDefault), r.value.lora_1_name)
      && NumberFrom(raw, "lora_1_strength", Some(1.0), r.value.lora_1_strength)
      && StringFrom(raw, "lora_2_name", Some(Lora2NameDefault), r.value.lora_2_name)
      && NumberFrom(raw, "lora_2_strength", Some(1.0), r.value.lora_2_strength)
      && StringFrom(raw, "lora_3_name", Some(Lora3NameDefault), r.value.lora_3_name)
      && NumberFrom(raw, "lora_3_strength", Some(1.0), r.value.lora_3_strength)
      && StringFrom(raw, "lora_4_name", Some(Lora4NameDefault), r.value.lora_4_name)
      && NumberFrom(raw, "lora_4_strength", Some(1.0), r.value.lora_4_strength)
      && StringFrom(raw, "lora_5_name", Some(Lora5NameDefault), r.value.lora_5_name)
      && NumberFrom(raw, "lora_5_strength", Some(1.0), r.value.lora_5_strength)
      && StringFrom(raw, "lora_6_name", Some(Lora6NameDefault), r.value.lora_6_name)
      && NumberFrom(raw, "lora_6_strength", Some(1.0), r.value.lora_6_strength)
      && StringFrom(raw, "lora_7_name", Some(Lora7NameDefault), r.value.lora_7_name)
      && NumberFrom(raw, "lora_7_strength", Some(1.0), r.value.lora_7_strength)
      && StringFrom(raw, "lora_8_name", Some(Lora8NameDefault), r.value.lora_8_name)
      && NumberFrom(raw, "lora_8_strength", Some(1.0), r.value.lora_8_strength)
      && StringFrom(raw, "lora_9_name", Some(Lora9NameDefault), r.value.lora_9_name)
      && NumberFrom(raw, "lora_9_strength", Some(1.0), r.value.lora_9_strength)
      && StringFrom(raw, "lora_10_name", Some(Lora10NameDefault), r.value.lora_10_name)
      && NumberFrom(raw, "lora_10_strength", Some(1.0), r.value.lora_10_strength)
  {
    ReadStringSpec(raw, "image", None);
    ReadStringSpec(raw, "image_2", Some(Image2Default));
    ReadStringSpec(raw, "image_3", Some(Image3Default));
    ReadStringSpec(raw, "prompt", Some(PromptDefault));
    ReadNumberSpec(raw, "seed", Some(drawnSeed as real), None, None);
    ReadNumberSpec(raw, "steps", Some(4.0), Some(1.0), Some(100.0));
    ReadNumberSpec(raw, "cfg_scale", Some(1.0), Some(0.0), Some(20.0));
    ReadEnumSpec(raw, "sampler_name", config.samplers, Some(SamplerNameDefault));
    ReadEnumSpec(raw, "scheduler", config.schedulers, Some(SchedulerDefault));
    ReadNumberSpec(raw, "denoise", Some(1.0), Some(0.0), Some(1.0));
    ReadNumberSpec(raw, "aura_flow_shift", Some(3.0), None, None);
    ReadNumberSpec(raw, "cfg_norm_strength", Some(1.0), None, None);
    ReadNumberSpec(raw, "megapixels", Some(1.0), None, None);
    ReadStringSpec(raw, "upscaler_model_name", Some(UpscalerModelNameDefault));
    ReadStringSpec(raw, "sam_prompt", Some(SamPromptDefault));
    ReadStringSpec(raw, "sam2_model", Some(Sam2ModelDefault));
    ReadStringSpec(raw, "dino_model", Some(DinoModelDefault));
    ReadStringSpec(raw, "sam3_model", Some(Sam3ModelDefault));
    ReadNumberSpec(raw, "sam_threshold", Some(0.35), None, None);
    ReadNumberSpec(raw, "sam_mask_blur", Some(0.0), None, None);
    ReadNumberSpec(raw, "sam_mask_offset", Some(0.0), None, None);
    ReadBoolSpec(raw, "sam_invert_output", Some(false));
    ReadStringSpec(raw, "sam_background_color", Some(SamBackgroundColorDefault));
    ReadNumberSpec(raw, "mask_fix_erode_dilate", Some(2.0), None, None);
    ReadNumberSpec(raw, "mask_fix_fill_holes", Some(20.0), None, None);
    ReadNumberSpec(raw, "mask_fix_remove_isolated", Some(0.0), None, None);
    ReadNumberSpec(raw, "mask_fix_smooth", Some(0.0), None, None);
    ReadNumberSpec(raw, "mask_fix_blur", Some(0.0), None, None);
    ReadStringSpec(raw, "rmbg_model", Some(RmbgModelDefault));
    ReadNumberSpec(raw, "rmbg_sensitivity", Some(1.0), None, None);
    ReadNumberSpec(raw, "rmbg_process_res", Some(1120.0), None, None);
    ReadNumberSpec(raw, "rmbg_mask_blur", Some(0.0), None, None);
    ReadNumberSpec(raw, "rmbg_mask_offset", Some(0.0), None, None);
    ReadBoolSpec(raw, "rmbg_refine_foreground", Some(false));
    ReadStringSpec(raw, "face_detection_model", Some(FaceDetectionModelDefault));
    ReadStringSpec(raw, "face_restore_model", Some(FaceRestoreModelDefault));
    ReadNumberSpec(raw, "face_restore_visibility", Some(1.0), Some(0.0), Some(1.0));
    ReadNumberSpec(raw, "face_restore_take_count", Some(10.0), None, None);
    ReadNumberSpec(raw, "output_downscale", Some(0.5), None, None);
    ReadNumberSpec(raw, "codeformer_weight", Some(0.5), Some(0.0), Some(1.0));
    ReadStringSpec(raw, "unet_name", Some(UnetNameDefault));
    ReadStringSpec(raw, "cpu_offload", Some(CpuOffloadDefault));
    ReadNumberSpec(raw, "num_blocks_on_gpu", Some(20.0), Some(1.0), Some(200.0));
    ReadStringSpec(raw, "use_pin_memory", Some(UsePinMemoryDefault));
    ReadStringSpec(raw, "clip_name", Some(ClipNameDefault));
    ReadBoolSpec(raw, "use_vae_utils_loader", Some(true));
    ReadStringSpec(raw, "vae_name", Some(VaeNameDefault));
    ReadNumberSpec(raw, "vae_upscale", Some(2.0), None, None);
    ReadBoolSpec(raw, "vae_tile", Some(false));
    ReadNumberSpec(raw, "vae_tile_size", Some(512.0), None, None);
    ReadNumberSpec(raw, "vae_overlap", Some(64.0), None, None);
    ReadStringSpec(raw, "lora_cpu_offload", Some(LoraCpuOffloadDefault));
    ReadStringSpec(raw, "lora_1_name", Some(Lora1NameDefault));
    ReadNumberSpec(raw, "lora_1_strength", Some(1.0), None, None);
    ReadStringSpec(raw, "lora_2_name", Some(Lora2NameDefault));
    ReadNumberSpec(raw, "lora_2_strength", Some(1.0), None, None);
    ReadStringSpec(raw, "lora_3_name", Some(Lora3NameDefault));
    ReadNumberSpec(raw, "lora_3_strength", Some(1.0), None, None);
    ReadStringSpec(raw, "lora_4_name", Some(Lora4NameDefault));
    ReadNumberSpec(raw, "lora_4_strength", Some(1.0), None, None);
    ReadStringSpec(raw, "lora_5_name", Some(Lora5NameDefault));
    ReadNumberSpec(raw, "lora_5_strength", Some(1.0), None, None);
    ReadStringSpec(raw, "lora_6_name", Some(Lora6NameDefault));
    ReadNumberSpec(raw, "lora_6_strength", Some(1.0), None, None);
    ReadStringSpec(raw, "lora_7_name", Some(Lora7NameDefault));
    ReadNumberSpec(raw, "lora_7_strength", Some(1.0), None, None);
    ReadStringSpec(raw, "lora_8_name", Some(Lora8NameDefault));
    ReadNumberSpec(raw, "lora_8_strength", Some(1.0), None, None);
    ReadStringSpec(raw, "lora_9_name", Some(Lora9NameDefault));
    ReadNumberSpec(raw, "lora_9_strength", Some(1.0), None, None);
    ReadStringSpec(raw, "lora_10_name", Some(Lora10NameDefault));
    ReadNumberSpec(raw, "lora_10_strength", Some(1.0), None, None);
  }

  /** Every key `RequestSchema` declares passes its check; a key without a default must be present. */
  predicate KeysPass(raw: map<string, Json>, config: Config, drawnSeed: int) {
    && StringPasses(raw, "image", None)
    && StringPasses(raw, "image_2", Some(Image2Default))
    && StringPasses(raw, "image_3", Some(Image3Default))
    && StringPasses(raw, "prompt", Some(PromptDefault))
    && NumberPasses(raw, "seed", Some(drawnSeed as real), None, None)
    && NumberPasses(raw, "steps", Some(4.0), Some(1.0), Some(100.0))
    && NumberPasses(raw, "cfg_scale", Some(1.0), Some(0.0), Some(20.0))
    && EnumPasses(raw, "sampler_name", config.samplers, Some(SamplerNameDefault))
    && EnumPasses(raw, "scheduler", config.schedulers, Some(SchedulerDefault))
    && NumberPasses(raw, "denoise", Some(1.0), Some(0.0), Some(1.0))
    && NumberPasses(raw, "aura_flow_shift", Some(3.0), None, None)
    && NumberPasses(raw, "cfg_norm_strength", Some(1.0), None, None)
    && NumberPasses(raw, "megapixels", Some(1.0), None, None)
    && StringPasses(raw, "upscaler_model_name", Some(UpscalerModelNameDefault))
    && StringPasses(raw, "sam_prompt", Some(SamPromptDefault))
    && StringPasses(raw, "sam2_model", Some(Sam2ModelDefault))
    && StringPasses(raw, "dino_model", Some(DinoModelDefault))
    && StringPasses(raw, "sam3_model", Some(Sam3ModelDefault))
    && NumberPasses(raw, "sam_threshold", Some(0.35), None, None)
    && NumberPasses(raw, "sam_mask_blur", Some(0.0), None, None)
    && NumberPasses(raw, "sam_mask_offset", Some(0.0), None, None)
    && BoolPasses(raw, "sam_invert_output", Some(false))
    && StringPasses(raw, "sam_background_color", Some(SamBackgroundColorDefault))
    && NumberPasses(raw, "mask_fix_erode_dilate", Some(2.0), None, None)
    && NumberPasses(raw, "mask_fix_fill_holes", Some(20.0), None, None)
    && NumberPasses(raw, "mask_fix_remove_isolated", Some(0.0), None, None)
    && NumberPasses(raw, "mask_fix_smooth", Some(0.0), None, None)
    && NumberPasses(raw, "mask_fix_blur", Some(0.0), None, None)
    && StringPasses(raw, "rmbg_model", Some(RmbgModelDefault))
    && NumberPasses(raw, "rmbg_sensitivity", Some(1.0), None, None)
    && NumberPasses(raw, "rmbg_process_res", Some(1120.0), None, None)
    && NumberPasses(raw, "rmbg_mask_blur", Some(0.0), None, None)
    && NumberPasses(raw, "rmbg_mask_offset", Some(0.0), None, None)
    && BoolPasses(raw, "rmbg_refine_foreground", Some(false))
    && StringPasses(raw, "face_detection_model", Some(FaceDetectionModelDefault))
    && StringPasses(raw, "face_restore_model", Some(FaceRestoreModelDefault))
    && NumberPasses(raw, "face_restore_visibility", Some(1.0), Some(0.0), Some(1.0))
    && NumberPasses(raw, "face_restore_take_count", Some(10.0), None, None)
    && NumberPasses(raw, "output_downscale", Some(0.5), None, None)
    && NumberPasses(raw, "codeformer_weight", Some(0.5), Some(0.0), Some(1.0))
    && StringPasses(raw, "unet_name", Some(UnetNameDefault))
    && StringPasses(raw, "cpu_offload", Some(CpuOffloadDefault))
    && NumberPasses(raw, "num_blocks_on_gpu", Some(20.0), Some(1.0), Some(200.0))
    && StringPasses(raw, "use_pin_memory", Some(UsePinMemoryDefault))
    && StringPasses(raw, "clip_name", Some(ClipNameDefault))
    && BoolPasses(raw, "use_vae_utils_loader", Some(true))
    && StringPasses(raw, "vae_name", Some(VaeNameDefault))
    && NumberPasses(raw, "vae_upscale", Some(2.0), None, None)
    && BoolPasses(raw, "vae_tile", Some(false))
    && NumberPasses(raw, "vae_tile_size", Some(512.0), None, None)
    && NumberPasses(raw, "vae_overlap", Some(64.0), None, None)
    && StringPasses(raw, "lora_cpu_offload", Some(LoraCpuOffloadDefault))
    && StringPasses(raw, "lora_1_name", Some(Lora1NameDefault))
    && NumberPasses(raw, "lora_1_strength", Some(1.0), None, None)
    && StringPasses(raw, "lora_2_name", Some(Lora2NameDefault))
    && NumberPasses(raw, "lora_2_strength", Some(1.0), None, None)
    && StringPasses(raw, "lora_3_name", Some(Lora3NameDefault))
    && NumberPasses(raw, "lora_3_strength", Some(1.0), None, None)
    && StringPasses(raw, "lora_4_name", Some(Lora4NameDefault))
    && NumberPasses(raw, "lora_4_strength", Some(1.0), None, None)
    && StringPasses(raw, "lora_5_name", Some(Lora5NameDefault))
    && NumberPasses(raw, "lora_5_strength", Some(1.0), None, None)
    && StringPasses(raw, "lora_6_name", Some(Lora6NameDefault))
    && NumberPasses(raw, "lora_6_strength", Some(1.0), None, None)
    && StringPasses(raw, "lora_7_name", Some(Lora7NameDefault))
    && NumberPasses(raw, "lora_7_strength", Some(1.0), None, None)
    && StringPasses(raw, "lora_8_name", Some(Lora8NameDefault))
    && NumberPasses(raw, "lora_8_strength", Some(1.0), None, None)
    && StringPasses(raw, "lora_9_name", Some(Lora9NameDefault))
    && NumberPasses(raw, "lora_9_strength", Some(1.0), None, None)
    && StringPasses(raw, "lora_10_name", Some(Lora10NameDefault))
    && NumberPasses(raw, "lora_10_strength", Some(1.0), None, None)
  }

  /** A request `RequestSchema` accepts passes every key check. */
  lemma AcceptedKeysPass(raw: map<string, Json>, config: Config, drawnSeed: int)
    requires Parse(raw, config, drawnSeed).Some?
    ensures KeysPass(raw, config, drawnSeed)
  {
    ReadStringSpec(raw, "image", None);
    ReadStringSpec(raw, "image_2", Some(Image2Default));
    ReadStringSpec(raw, "image_3", Some(Image3Default));
    ReadStringSpec(raw, "prompt", Some(PromptDefault));
    ReadNumberSpec(raw, "seed", Some(drawnSeed as real), None, None);
    ReadNumberSpec(raw, "steps", Some(4.0), Some(1.0), Some(100.0));
    ReadNumberSpec(raw, "cfg_scale", Some(1.0), Some(0.0), Some(20.0));
    ReadEnumSpec(raw, "sampler_name", config.samplers, Some(SamplerNameDefault));
    ReadEnumSpec(raw, "scheduler", config.schedulers, Some(SchedulerDefault));
    ReadNumberSpec(raw, "denoise", Some(1.0), Some(0.0), Some(1.0));
    ReadNumberSpec(raw, "aura_flow_shift", Some(3.0), None, None);
    ReadNumberSpec(raw, "cfg_norm_strength", Some(1.0), None, None);
    ReadNumberSpec(raw, "megapixels", Some(1.0), None, None);
    ReadStringSpec(raw, "upscaler_model_name", Some(UpscalerModelNameDefault));
    ReadStringSpec(raw, "sam_prompt", Some(SamPromptDefault));
    ReadStringSpec(raw, "sam2_model", Some(Sam2ModelDefault));
    ReadStringSpec(raw, "dino_model", Some(DinoModelDefault));
    ReadStringSpec(raw, "sam3_model", Some(Sam3ModelDefault));
    ReadNumberSpec(raw, "sam_threshold", Some(0.35), None, None);
    ReadNumberSpec(raw, "sam_mask_blur", Some(0.0), None, None);
    ReadNumberSpec(raw, "sam_mask_offset", Some(0.0), None, None);
    ReadBoolSpec(raw, "sam_invert_output", Some(false));
    ReadStringSpec(raw, "sam_background_color", Some(SamBackgroundColorDefault));
    ReadNumberSpec(raw, "mask_fix_erode_dilate", Some(2.0), None, None);
    ReadNumberSpec(raw, "mask_fix_fill_holes", Some(20.0), None, None);
    ReadNumberSpec(raw, "mask_fix_remove_isolated", Some(0.0), None, None);
    ReadNumberSpec(raw, "mask_fix_smooth", Some(0.0), None, None);
    ReadNumberSpec(raw, "mask_fix_blur", Some(0.0), None, None);
    ReadStringSpec(raw, "rmbg_model", Some(RmbgModelDefault));
    ReadNumberSpec(raw, "rmbg_sensitivity", Some(1.0), None, None);
    ReadNumberSpec(raw, "rmbg_process_res", Some(1120.0), None, None);
    ReadNumberSpec(raw, "rmbg_mask_blur", Some(0.0), None, None);
    ReadNumberSpec(raw, "rmbg_mask_offset", Some(0.0), None, None);
    ReadBoolSpec(raw, "rmbg_refine_foreground", Some(false));
    ReadStringSpec(raw, "face_detection_model", Some(FaceDetectionModelDefault));
    ReadStringSpec(raw, "face_restore_model", Some(FaceRestoreModelDefault));
    ReadNumberSpec(raw, "face_restore_visibility", Some(1.0), Some(0.0), Some(1.0));
    ReadNumberSpec(raw, "face_restore_take_count", Some(10.0), None, None);
    ReadNumberSpec(raw, "output_downscale", Some(0.5), None, None);
    ReadNumberSpec(raw, "codeformer_weight", Some(0.5), Some(0.0), Some(1.0));
    ReadStringSpec(raw, "unet_name", Some(UnetNameDefault));
    ReadStringSpec(raw, "cpu_offload", Some(CpuOffloadDefault));
    ReadNumberSpec(raw, "num_blocks_on_gpu", Some(20.0), Some(1.0), Some(200.0));
    ReadStringSpec(raw, "use_pin_memory", Some(UsePinMemoryDefault));
    ReadStringSpec(raw, "clip_name", Some(ClipNameDefault));
    ReadBoolSpec(raw, "use_vae_utils_loader", Some(true));
    ReadStringSpec(raw, "vae_name", Some(VaeNameDefault));
    ReadNumberSpec(raw, "vae_upscale", Some(2.0), None, None);
    ReadBoolSpec(raw, "vae_tile", Some(false));
    ReadNumberSpec(raw, "vae_tile_size", Some(512.0), None, None);
    ReadNumberSpec(raw, "vae_overlap", Some(64.0), None, None);
    ReadStringSpec(raw, "lora_cpu_offload", Some(LoraCpuOffloadDefault));
    ReadStringSpec(raw, "lora_1_name", Some(Lora1NameDefault));
    ReadNumberSpec(raw, "lora_1_strength", Some(1.0), None, None);
    ReadStringSpec(raw, "lora_2_name", Some(Lora2NameDefault));
    ReadNumberSpec(raw, "lora_2_strength", Some(1.0), None, None);
    ReadStringSpec(raw, "lora_3_name", Some(Lora3NameDefault));
    ReadNumberSpec(raw, "lora_3_strength", Some(1.0), None, None);
    ReadStringSpec(raw, "lora_4_name", Some(Lora4NameDefault));
    ReadNumberSpec(raw, "lora_4_strength", Some(1.0), None, None);
    ReadStringSpec(raw, "lora_5_name", Some(Lora5NameDefault));
    ReadNumberSpec(raw, "lora_5_strength", Some(1.0), None, None);
    ReadStringSpec(raw, "lora_6_name", Some(Lora6NameDefault));
    ReadNumberSpec(raw, "lora_6_strength", Some(1.0), None, None);
    ReadStringSpec(raw, "lora_7_name", Some(Lora7NameDefault));
    ReadNumberSpec(raw, "lora_7_strength", Some(1.0), None, None);
    ReadStringSpec(raw, "lora_8_name", Some(Lora8NameDefault));
    ReadNumberSpec(raw, "lora_8_strength", Some(1.0), None, None);
    ReadStringSpec(raw, "lora_9_name", Some(Lora9NameDefault));
    ReadNumberSpec(raw, "lora_9_strength", Some(1.0), None, None);
    ReadStringSpec(raw, "lora_10_name", Some(Lora10NameDefault));
    ReadNumberSpec(raw, "lora_10_strength", Some(1.0), None, None);
  }

  /** A request that passes every key check is accepted. */
  lemma PassingKeysAccepted(raw: map<string, Json>, config: Config, drawnSeed: int)
    requires KeysPass(raw, config, drawnSeed)
    ensures Parse(raw, config, drawnSeed).Some?
  {
    ReadStringSpec(raw, "image", None);
    ReadStringSpec(raw, "image_2", Some(Image2Default));
    ReadStringSpec(raw, "image_3", Some(Image3Default));
    ReadStringSpec(raw, "prompt", Some(PromptDefault));
    ReadNumberSpec(raw, "seed", Some(drawnSeed as real), None, None);
    ReadNumberSpec(raw, "steps", Some(4.0), Some(1.0), Some(100.0));
    ReadNumberSpec(raw, "cfg_scale", Some(1.0), Some(0.0), Some(20.0));
    ReadEnumSpec(raw, "sampler_name", config.samplers, Some(SamplerNameDefault));
    ReadEnumSpec(raw, "scheduler", config.schedulers, Some(SchedulerDefault));
    ReadNumberSpec(raw, "denoise", Some(1.0), Some(0.0), Some(1.0));
    ReadNumberSpec(raw, "aura_flow_shift", Some(3.0), None, None);
    ReadNumberSpec(raw, "cfg_norm_strength", Some(1.0), None, None);
    ReadNumberSpec(raw, "megapixels", Some(1.0), None, None);
    ReadStringSpec(raw, "upscaler_model_name", Some(UpscalerModelNameDefault));
    ReadStringSpec(raw, "sam_prompt", Some(SamPromptDefault));
    ReadStringSpec(raw, "sam2_model", Some(Sam2ModelDefault));
    ReadStringSpec(raw, "dino_model", Some(DinoModelDefault));
    ReadStringSpec(raw, "sam3_model", Some(Sam3ModelDefault));
    ReadNumberSpec(raw, "sam_threshold", Some(0.35), None, None);
    ReadNumberSpec(raw, "sam_mask_blur", Some(0.0), None, None);
    ReadNumberSpec(raw, "sam_mask_offset", Some(0.0), None, None);
    ReadBoolSpec(raw, "sam_invert_output", Some(false));
    ReadStringSpec(raw, "sam_background_color", Some(SamBackgroundColorDefault));
    ReadNumberSpec(raw, "mask_fix_erode_dilate", Some(2.0), None, None);
    ReadNumberSpec(raw, "mask_fix_fill_holes", Some(20.0), None, None);
    ReadNumberSpec(raw, "mask_fix_remove_isolated", Some(0.0), None, None);
    ReadNumberSpec(raw, "mask_fix_smooth", Some(0.0), None, None);
    ReadNumberSpec(raw, "mask_fix_blur", Some(0.0), None, None);
    ReadStringSpec(raw, "rmbg_model", Some(RmbgModelDefault));
    ReadNumberSpec(raw, "rmbg_sensitivity", Some(1.0), None, None);
    ReadNumberSpec(raw, "rmbg_process_res", Some(1120.0), None, None);
    ReadNumberSpec(raw, "rmbg_mask_blur", Some(0.0), None, None);
    ReadNumberSpec(raw, "rmbg_mask_offset", Some(0.0), None, None);
    ReadBoolSpec(raw, "rmbg_refine_foreground", Some(false));
    ReadStringSpec(raw, "face_detection_model", Some(FaceDetectionModelDefault));
    ReadStringSpec(raw, "face_restore_model", Some(FaceRestoreModelDefault));
    ReadNumberSpec(raw, "face_restore_visibility", Some(1.0), Some(0.0), Some(1.0));
    ReadNumberSpec(raw, "face_restore_take_count", Some(10.0), None, None);
    ReadNumberSpec(raw, "output_downscale", Some(0.5), None, None);
    ReadNumberSpec(raw, "codeformer_weight", Some(0.5), Some(0.0), Some(1.0));
    ReadStringSpec(raw, "unet_name", Some(UnetNameDefault));
    ReadStringSpec(raw, "cpu_offload", Some(CpuOffloadDefault));
    ReadNumberSpec(raw, "num_blocks_on_gpu", Some(20.0), Some(1.0), Some(200.0));
    ReadStringSpec(raw, "use_pin_memory", Some(UsePinMemoryDefault));
    ReadStringSpec(raw, "clip_name", Some(ClipNameDefault));
    ReadBoolSpec(raw, "use_vae_utils_loader", Some(true));
    ReadStringSpec(raw, "vae_name", Some(VaeNameDefault));
    ReadNumberSpec(raw, "vae_upscale", Some(2.0), None, None);
    ReadBoolSpec(raw, "vae_tile", Some(false));
    ReadNumberSpec(raw, "vae_tile_size", Some(512.0), None, None);
    ReadNumberSpec(raw, "vae_overlap", Some(64.0), None, None);
    ReadStringSpec(raw, "lora_cpu_offload", Some(LoraCpuOffloadDefault));
    ReadStringSpec(raw, "lora_1_name", Some(Lora1NameDefault));
    ReadNumberSpec(raw, "lora_1_strength", Some(1.0), None, None);
    ReadStringSpec(raw, "lora_2_name", Some(Lora2NameDefault));
    ReadNumberSpec(raw, "lora_2_strength", Some(1.0), None, None);
    ReadStringSpec(raw, "lora_3_name", Some(Lora3NameDefault));
    ReadNumberSpec(raw, "lora_3_strength", Some(1.0), None, None);
    ReadStringSpec(raw, "lora_4_name", Some(Lora4NameDefault));
    ReadNumberSpec(raw, "lora_4_strength", Some(1.0), None, None);
    ReadStringSpec(raw, "lora_5_name", Some(Lora5NameDefault));
    ReadNumberSpec(raw, "lora_5_strength", Some(1.0), None, None);
    ReadStringSpec(raw, "lora_6_name", Some(Lora6NameDefault));
    ReadNumberSpec(raw, "lora_6_strength", Some(1.0), None, None);
    ReadStringSpec(raw, "lora_7_name", Some(Lora7NameDefault));
    ReadNumberSpec(raw, "lora_7_strength", Some(1.0), None, None);
    ReadStringSpec(raw, "lora_8_name", Some(Lora8NameDefault));
    ReadNumberSpec(raw, "lora_8_strength", Some(1.0), None, None);
    ReadStringSpec(raw, "lora_9_name", Some(Lora9NameDefault));
    ReadNumberSpec(raw, "lora_9_strength", Some(1.0), None, None);
    ReadStringSpec(raw, "lora_10_name", Some(Lora10NameDefault));
    ReadNumberSpec(raw, "lora_10_strength", Some(1.0), None, None);
  }

  /**
   * `RequestSchema` accepts a request exactly when every declared key passes its check: the
   * declared JSON type, the bounds, `.int()` and the enum, with a missing key taking its
   * default and a key without a default required.
   */
  lemma ParseAccepts(raw: map<string, Json>, config: Config, drawnSeed: int)
    ensures Parse(raw, config, drawnSeed).Some? <==> KeysPass(raw, config, drawnSeed)
  {
    if Parse(raw, config, drawnSeed).Some? {
      AcceptedKeysPass(raw, config, drawnSeed);
    }
    if KeysPass(raw, config, drawnSeed) {
      PassingKeysAccepted(raw, config, drawnSeed);
    }
  }

}

/** `generateWorkflow` of api-workflows/nunchaku_qwen_edit_sam2.ts as a prompt graph. */
module NunchakuQwenEditSam2 {
  import opened Wrappers
  import opened ComfyGraph
  import opened NunchakuQwenEditSam2Request

  /** The keys of the prompt's nodes. */
  const Keys: set<NodeId> := {37, 38, 66, 75, 78, 88, 118, 120, 123, 128, 129, 148, 151, 152, 153, 154, 167, 168, 177, 183, 184, 191, 192, 219, 227, 228, 231, 247, 252, 253, 254, 255, 261, 263, 269, 270, 274, 282, 285, 286, 303, 304, 312, 318, 319, 320, 321, 324, 325, 327, 331, 336, 340, 341}

  /**
   * A topological rank: each node links only to nodes of lower rank. Written as a search
   * over the sorted keys, so that evaluating it at one key takes a few comparisons.
   */
  function Rank(k: NodeId): nat {
    if k < 247 then
      if k < 152 then
        if k < 118 then
          if k < 75 then
            if k < 38 then
              0
            else
              if k < 66 then
                0
              else
                2
          else
            if k < 78 then
              3
            else
              if k < 88 then
                0
              else
                17
        else
          if k < 128 then
            if k < 120 then
              19
            else
              if k < 123 then
                25
              else
                13
          else
            if k < 148 then
              if k < 129 then
                17
              else
                18
            else
              if k < 151 then
                14
              else
                13
      else
        if k < 184 then
          if k < 167 then
            if k < 153 then
              15
            else
              if k < 154 then
                0
              else
                5
          else
            if k < 177 then
              if k < 168 then
                23
              else
                1
            else
              if k < 183 then
                0
              else
                2
        else
          if k < 219 then
            3
          else
            if k < 228 then
              if k < 227 then
                3
              else
                1
            else
              if k < 231 then
                2
              else
                3
    else
      if k < 303 then
        if k < 263 then
          if k < 254 then
            if k < 252 then
              24
            else
              if k < 253 then
                16
              else
                14
          else
            if k < 255 then
              7
            else
              if k < 261 then
                4
              else
                0
        else
          if k < 274 then
            if k < 269 then
              1
            else
              if k < 270 then
                1
              else
                6
          else
            if k < 285 then
              if k < 282 then
                0
              else
                4
            else
              if k < 286 then
                0
              else
                20
      else
        if k < 324 then
          if k < 318 then
            if k < 304 then
              1
            else
              if k < 312 then
                0
              else
                20
          else
            if k < 320 then
              if k < 319 then
                22
              else
                0
            else
              if k < 321 then
                21
              else
                1
        else
          if k < 331 then
            if k < 325 then
              3
            else
              if k < 327 then
                12
              else
                8
          else
            if k < 340 then
              if k < 336 then
                9
              else
                11
            else
              if k < 341 then
                9
              else
                10
  }

  /** Node "37" (lines 232-240). */
  function Node37(input: Request): (n: Node)
    ensures LinksWithin(n, Keys) && LinksBelow(n, Rank(37), Rank)
    ensures Defined(n)
  {
    Node("NunchakuQwenImageDiTLoader", map[
      "model_name" := S(input.unet_name),
      "cpu_offload" := S(input.cpu_offload),
      "num_blocks_on_gpu" := R(input.num_blocks_on_gpu),
      "use_pin_memory" := S(input.use_pin_memory)])
  }

  /** Node "38" (lines 241-248). */
  function Node38(input: Request): (n: Node)
    ensures LinksWithin(n, Keys) && LinksBelow(n, Rank(38), Rank)
    ensures Defined(n)
  {
    Node("CLIPLoader", map[
      "clip_name" := S(input.clip_name),
      "type" := S("qwen_image"),
      "device" := S("default")])
  }

  /** Node "66" (lines 249-255). */
  function Node66(input: Request): (n: Node)
    ensures LinksWithin(n, Keys) && LinksBelow(n, Rank(66), Rank)
    ensures Defined(n)
  {
    Node("ModelSamplingAuraFlow", map[
      "shift" := R(input.aura_flow_shift),
      "model" := Ref(321, 0)])
  }

  /** Node "75" (lines 256-262). */
  function Node75(input: Request): (n: Node)
    ensures LinksWithin(n, Keys) && LinksBelow(n, Rank(75), Rank)
    ensures Defined(n)
  {
    Node("CFGNorm", map[
      "strength" := R(input.cfg_norm_strength),
      "model" := Ref(66, 0)])
  }

  /** Node "78" (lines 263-269). */
  function Node78(input: Request): (n: Node)
    ensures LinksWithin(n, Keys) && LinksBelow(n, Rank(78), Rank)
    ensures Defined(n)
  {
    Node("LoadImage", map[
      "image" := S(input.image),
      "choose file to upload" := S("image")])
  }

  /** Node "88" (lines 270-276). */
  function Node88(input: Request): (n: Node)
    ensures LinksWithin(n, Keys) && LinksBelow(n, Rank(88), Rank)
    ensures Defined(n)
  {
    Node("VAEEncode", map[
      "pixels" := Ref(252, 0),
      "vae" := Ref(303, 0)])
  }

  /** Node "118" (lines 277-291). */
  function Node118(input: Request): (n: Node)
    ensures LinksWithin(n, Keys) && LinksBelow(n, Rank(118), Rank)
    ensures Defined(n)
  {
    Node("KSampler", map[
      "steps" := R(input.steps),
      "cfg" := R(input.cfg_scale),
      "sampler_name" := S(input.sampler_name),
      "scheduler" := S(input.scheduler),
      "denoise" := R(input.denoise),
      "model" := Ref(75, 0),
      "positive" := Ref(128, 0),
      "negative" := Ref(129, 0),
      "latent_image" := Ref(88, 0),
      "seed" := Ref(274, 3)])
  }

  /** Node "120" (lines 292-298). */
  function Node120(input: Request): (n: Node)
    ensures LinksWithin(n, Keys) && LinksBelow(n, Rank(120), Rank)
    ensures Defined(n)
  {
    Node("SaveImage", map[
      "filename_prefix" := S("ComfyUI"),
      "images" := Ref(247, 0)])
  }

  /** Node "123" (lines 299-313). */
  function Node123(input: Request): (n: Node)
    ensures LinksWithin(n, Keys) && LinksBelow(n, Rank(123), Rank)
    ensures Defined(n)
  {
    Node("RMBG", map[
      "model" := S(input.rmbg_model),
      "sensitivity" := R(input.rmbg_sensitivity),
      "process_res" := R(input.rmbg_process_res),
      "mask_blur" := R(input.rmbg_mask_blur),
      "mask_offset" := R(input.rmbg_mask_offset),
      "invert_output" := B(false),
      "refine_foreground" := B(input.rmbg_refine_foreground),
      "background" := S("Alpha"),
      "background_color" := S("#ffffff"),
      "image" := Ref(325, 0)])
  }

  /** Node "128" (lines 314-322). */
  function Node128(input: Request): (n: Node)
    ensures LinksWithin(n, Keys) && LinksBelow(n, Rank(128), Rank)
    ensures Defined(n)
  {
    Node("TextEncodeQwenImageEditPlus", map[
      "prompt" := Ref(282, 0),
      "clip" := Ref(38, 0),
      "vae" := Ref(303, 0),
      "image1" := Ref(252, 0)])
  }

  /** Node "129" (lines 323-328). */
  function Node129(input: Request): (n: Node)
    ensures LinksWithin(n, Keys) && LinksBelow(n, Rank(129), Rank)
    ensures Defined(n)
  {
    Node("ConditioningZeroOut", map[
      "conditioning" := Ref(128, 0)])
  }

  /** Node "148" (lines 329-337). */
  function Node148(input: Request): (n: Node)
    ensures LinksWithin(n, Keys) && LinksBelow(n, Rank(148), Rank)
    ensures Defined(n)
  {
    Node("EmptyImage", map[
      "width" := Ref(151, 0),
      "height" := Ref(151, 1),
      "batch_size" := N(1),
      "color" := N(0)])
  }

  /** Node "151" (lines 338-343). */
  function Node151(input: Request): (n: Node)
    ensures LinksWithin(n, Keys) && LinksBelow(n, Rank(151), Rank)
    ensures Defined(n)
  {
    Node("GetImageSize+", map[
      "image" := Ref(325, 0)])
  }

  /** Node "152" (lines 344-354). */
  function Node152(input: Request): (n: Node)
    ensures LinksWithin(n, Keys) && LinksBelow(n, Rank(152), Rank)
    ensures Defined(n)
  {
    Node("ImageCompositeMasked", map[
      "x" := N(0),
      "y" := N(0),
      "resize_source" := B(false),
      "destination" := Ref(148, 0),
      "source" := Ref(123, 0),
      "mask" := Ref(123, 1)])
  }

  /** Node "153" (lines 355-360). */
  function Node153(input: Request): (n: Node)
    ensures LinksWithin(n, Keys) && LinksBelow(n, Rank(153), Rank)
    ensures Defined(n)
  {
    Node("UpscaleModelLoader", map[
      "model_name" := S(input.upscaler_model_name)])
  }

  /** Node "154" (lines 361-367). */
  function Node154(input: Request): (n: Node)
    ensures LinksWithin(n, Keys) && LinksBelow(n, Rank(154), Rank)
    ensures Defined(n)
  {
    Node("ImageUpscaleWithModel", map[
      "upscale_model" := Ref(153, 0),
      "image" := Ref(255, 0)])
  }

  /** Node "167" (lines 368-382). */
  function Node167(input: Request): (n: Node)
    ensures LinksWithin(n, Keys) && LinksBelow(n, Rank(167), Rank)
    ensures Defined(n)
  {
    Node("ReActorRestoreFaceAdvanced", map[
      "facedetection" := S(input.face_detection_model),
      "model" := S(input.face_restore_model),
      "visibility" := R(input.face_restore_visibility),
      "codeformer_weight" := R(input.codeformer_weight),
      "face_selection" := S("all"),
      "sort_by" := S("area"),
      "reverse_order" := B(false),
      "take_start" := N(0),
      "take_count" := R(input.face_restore_take_count),
      "image" := Ref(318, 0)])
  }

  /** Node "168" (lines 383-393). */
  function Node168(input: Request): (n: Node)
    ensures LinksWithin(n, Keys) && LinksBelow(n, Rank(168), Rank)
    ensures Defined(n)
  {
    Node("SpotlessTextSplitByDelimiter", map[
      "delimiter" := S("==="),
      "secondary_delimiter" := S(""),
      "start_index" := N(0),
      "skip_every" := N(0),
      "max_count" := N(8),
      "text" := Ref(177, 0)])
  }

  /** Node "177" (lines 394-399). */
  function Node177(input: Request): (n: Node)
    ensures LinksWithin(n, Keys) && LinksBelow(n, Rank(177), Rank)
    ensures Defined(n)
  {
    Node("Text Multiline", map[
      "text" := S(input.prompt)])
  }

  /** Node "183" (lines 400-411). */
  function Node183(input: Request): (n: Node)
    ensures LinksWithin(n, Keys) && LinksBelow(n, Rank(183), Rank)
    ensures Defined(n)
  {
    Node("RegexReplace", map[
      "regex_pattern" := S("[\r\n]"),
      "replace" := S(""),
      "case_insensitive" := B(true),
      "multiline" := B(false),
      "dotall" := B(false),
      "count" := N(0),
      "string" := Ref(168, 0)])
  }

  /** Node "184" (lines 412-423). */
  function Node184(input: Request): (n: Node)
    ensures LinksWithin(n, Keys) && LinksBelow(n, Rank(184), Rank)
    ensures Defined(n)
  {
    Node("RegexReplace", map[
      "regex_pattern" := S("\\<.*\\>"),
      "replace" := S(""),
      "case_insensitive" := B(true),
      "multiline" := B(false),
      "dotall" := B(false),
      "count" := N(0),
      "string" := Ref(183, 0)])
  }

  /** Node "191" (lines 424-431). */
  function Node191(input: Request): (n: Node)
    ensures LinksWithin(n, Keys) && LinksBelow(n, Rank(191), Rank)
    ensures Defined(n)
  {
    Node("Text Contains", map[
      "sub_text" := S("<restoreface>"),
      "case_insensitive" := B(true),
      "text" := Ref(183, 0)])
  }

  /** Node "192" (lines 432-439). */
  function Node192(input: Request): (n: Node)
    ensures LinksWithin(n, Keys) && LinksBelow(n, Rank(192), Rank)
    ensures Defined(n)
  {
    Node("Text Contains", map[
      "sub_text" := S("<rmbg>"),
      "case_insensitive" := B(true),
      "text" := Ref(183, 0)])
  }

  /** Node "219" (lines 440-447). */
  function Node219(input: Request): (n: Node)
    ensures LinksWithin(n, Keys) && LinksBelow(n, Rank(219), Rank)
    ensures Defined(n)
  {
    Node("Text Contains", map[
      "sub_text" := S("<upscale>"),
      "case_insensitive" := B(true),
      "text" := Ref(183, 0)])
  }

  /** Node "227" (lines 448-453). */
  function Node227(input: Request): (n: Node)
    ensures LinksWithin(n, Keys) && LinksBelow(n, Rank(227), Rank)
    ensures Defined(n)
  {
    Node("GetImageSize+", map[
      "image" := Ref(78, 0)])
  }

  /** Node "228" (lines 454-461). */
  function Node228(input: Request): (n: Node)
    ensures LinksWithin(n, Keys) && LinksBelow(n, Rank(228), Rank)
    ensures Defined(n)
  {
    Node("easy mathInt", map[
      "operation" := S("multiply"),
      "a" := Ref(227, 0),
      "b" := Ref(227, 1)])
  }

  /** Node "231" (lines 462-469). */
  function Node231(input: Request): (n: Node)
    ensures LinksWithin(n, Keys) && LinksBelow(n, Rank(231), Rank)
    ensures Defined(n)
  {
    Node("easy compare", map[
      "comparison" := S("a < b"),
      "a" := Ref(228, 0),
      "b" := Ref(263, 0)])
  }

  /** Node "247" (lines 470-477). */
  function Node247(input: Request): (n: Node)
    ensures LinksWithin(n, Keys) && LinksBelow(n, Rank(247), Rank)
    ensures Defined(n)
  {
    Node("ImpactConditionalBranch", map[
      "cond" := Ref(191, 0),
      "tt_value" := Ref(167, 0),
      "ff_value" := Ref(318, 0)])
  }

  /** Node "252" (lines 478-485). */
  function Node252(input: Request): (n: Node)
    ensures LinksWithin(n, Keys) && LinksBelow(n, Rank(252), Rank)
    ensures Defined(n)
  {
    Node("ImpactConditionalBranch", map[
      "cond" := Ref(192, 0),
      "tt_value" := Ref(152, 0),
      "ff_value" := Ref(325, 0)])
  }

  /** Node "253" (lines 486-493). */
  function Node253(input: Request): (n: Node)
    ensures LinksWithin(n, Keys) && LinksBelow(n, Rank(253), Rank)
    ensures Defined(n)
  {
    Node("ImpactConditionalBranch", map[
      "cond" := Ref(192, 0),
      "tt_value" := Ref(123, 0),
      "ff_value" := Ref(325, 0)])
  }

  /** Node "254" (lines 494-501). */
  function Node254(input: Request): (n: Node)
    ensures LinksWithin(n, Keys) && LinksBelow(n, Rank(254), Rank)
    ensures Defined(n)
  {
    Node("ImpactConditionalBranch", map[
      "cond" := Ref(219, 0),
      "tt_value" := Ref(270, 0),
      "ff_value" := Ref(269, 0)])
  }

  /** Node "255" (lines 502-509). */
  function Node255(input: Request): (n: Node)
    ensures LinksWithin(n, Keys) && LinksBelow(n, Rank(255), Rank)
    ensures Defined(n)
  {
    Node("ImpactConditionalBranch", map[
      "cond" := Ref(231, 0),
      "tt_value" := Ref(78, 0),
      "ff_value" := Ref(269, 0)])
  }

  /** Node "261" (lines 510-515). */
  function Node261(input: Request): (n: Node)
    ensures LinksWithin(n, Keys) && LinksBelow(n, Rank(261), Rank)
    ensures Defined(n)
  {
    Node("easy int", map[
      "value" := R(input.megapixels)])
  }

  /** Node "263" (lines 516-523). */
  function Node263(input: Request): (n: Node)
    ensures LinksWithin(n, Keys) && LinksBelow(n, Rank(263), Rank)
    ensures Defined(n)
  {
    Node("easy mathInt", map[
      "b" := N(1048576),
      "operation" := S("multiply"),
      "a" := Ref(261, 0)])
  }

  /** Node "269" (lines 524-529). */
  function Node269(input: Request): (n: Node)
    ensures LinksWithin(n, Keys) && LinksBelow(n, Rank(269), Rank)
    ensures Defined(n)
  {
    Node("FluxKontextImageScale", map[
      "image" := Ref(78, 0)])
  }

  /** Node "270" (lines 530-535). */
  function Node270(input: Request): (n: Node)
    ensures LinksWithin(n, Keys) && LinksBelow(n, Rank(270), Rank)
    ensures Defined(n)
  {
    Node("FluxKontextImageScale", map[
      "image" := Ref(154, 0)])
  }

  /** Node "274" (lines 536-542). */
  function Node274(input: Request): (n: Node)
    ensures LinksWithin(n, Keys) && LinksBelow(n, Rank(274), Rank)
    ensures Defined(n)
  {
    Node("Seed", map[
      "seed" := R(input.seed),
      "control_after_generate" := S("fixed")])
  }

  /** Node "282" (lines 543-550). */
  function Node282(input: Request): (n: Node)
    ensures LinksWithin(n, Keys) && LinksBelow(n, Rank(282), Rank)
    ensures Defined(n)
  {
    Node("Stable Wildcards", map[
      "prompt" := Ref(184, 0),
      "version" := N(1),
      "seed" := Ref(274, 3)])
  }

  /** Node "285" (lines 551-556). */
  function Node285(input: Request): (n: Node)
    ensures LinksWithin(n, Keys) && LinksBelow(n, Rank(285), Rank)
    ensures Defined(n)
  {
    Node("VAEUtils_CustomVAELoader", map[
      "vae_name" := S(input.vae_name)])
  }

  /** Node "286" (lines 557-569). */
  function Node286(input: Request): (n: Node)
    ensures LinksWithin(n, Keys) && LinksBelow(n, Rank(286), Rank)
    ensures Defined(n)
  {
    Node("VAEUtils_VAEDecodeTiled", map[
      "upscale" := R(input.vae_upscale),
      "tile" := B(input.vae_tile),
      "tile_size" := R(input.vae_tile_size),
      "overlap" := R(input.vae_overlap),
      "temporal_size" := N(4096),
      "temporal_overlap" := N(64),
      "samples" := Ref(118, 0),
      "vae" := Ref(303, 0)])
  }

  /** Node "303" (lines 570-577). */
  function Node303(input: Request): (n: Node)
    ensures LinksWithin(n, Keys) && LinksBelow(n, Rank(303), Rank)
    ensures Defined(n)
  {
    Node("ImpactConditionalBranch", map[
      "cond" := Ref(319, 0),
      "tt_value" := Ref(285, 0),
      "ff_value" := Ref(304, 0)])
  }

  /** Node "304" (lines 578-583). */
  function Node304(input: Request): (n: Node)
    ensures LinksWithin(n, Keys) && LinksBelow(n, Rank(304), Rank)
    ensures Defined(n)
  {
    Node("VAELoader", map[
      "vae_name" := S(input.vae_name)])
  }

  /** Node "312" (lines 584-590). */
  function Node312(input: Request): (n: Node)
    ensures LinksWithin(n, Keys) && LinksBelow(n, Rank(312), Rank)
    ensures Defined(n)
  {
    Node("VAEDecode", map[
      "samples" := Ref(118, 0),
      "vae" := Ref(303, 0)])
  }

  /** Node "318" (lines 591-598). */
  function Node318(input: Request): (n: Node)
    ensures LinksWithin(n, Keys) && LinksBelow(n, Rank(318), Rank)
    ensures Defined(n)
  {
    Node("ImpactConditionalBranch", map[
      "cond" := Ref(319, 0),
      "tt_value" := Ref(320, 0),
      "ff_value" := Ref(312, 0)])
  }

  /** Node "319" (lines 599-604). */
  function Node319(input: Request): (n: Node)
    ensures LinksWithin(n, Keys) && LinksBelow(n, Rank(319), Rank)
    ensures Defined(n)
  {
    Node("ImpactBoolean", map[
      "value" := B(input.use_vae_utils_loader)])
  }

  /** Node "320" (lines 605-612). */
  function Node320(input: Request): (n: Node)
    ensures LinksWithin(n, Keys) && LinksBelow(n, Rank(320), Rank)
    ensures Defined(n)
  {
    Node("ImageScaleBy", map[
      "upscale_method" := S("lanczos"),
      "scale_by" := R(input.output_downscale),
      "image" := Ref(286, 0)])
  }

  /** Node "321" (lines 613-640). */
  function Node321(input: Request): (n: Node)
    ensures LinksWithin(n, Keys) && LinksBelow(n, Rank(321), Rank)
    ensures Defined(n)
  {
    Node("NunchakuQwenImageLoraStack", map[
      "lora_count" := N(10),
      "cpu_offload" := S(input.lora_cpu_offload),
      "lora_name_1" := S(input.lora_1_name),
      "lora_strength_1" := R(input.lora_1_strength),
      "lora_name_2" := S(input.lora_2_name),
      "lora_strength_2" := R(input.lora_2_strength),
      "lora_name_3" := S(input.lora_3_name),
      "lora_strength_3" := R(input.lora_3_strength),
      "lora_name_4" := S(input.lora_4_name),
      "lora_strength_4" := R(input.lora_4_strength),
      "lora_name_5" := S(input.lora_5_name),
      "lora_strength_5" := R(input.lora_5_strength),
      "lora_name_6" := S(input.lora_6_name),
      "lora_strength_6" := R(input.lora_6_strength),
      "lora_name_7" := S(input.lora_7_name),
      "lora_strength_7" := R(input.lora_7_strength),
      "lora_name_8" := S(input.lora_8_name),
      "lora_strength_8" := R(input.lora_8_strength),
      "lora_name_9" := S(input.lora_9_name),
      "lora_strength_9" := R(input.lora_9_strength),
      "lora_name_10" := S(input.lora_10_name),
      "lora_strength_10" := R(input.lora_10_strength),
      "model" := Ref(37, 0)])
  }

  /** Node "324" (lines 641-648). */
  function Node324(input: Request): (n: Node)
    ensures LinksWithin(n, Keys) && LinksBelow(n, Rank(324), Rank)
    ensures Defined(n)
  {
    Node("Text Contains", map[
      "sub_text" := S("<sam>"),
      "case_insensitive" := B(true),
      "text" := Ref(183, 0)])
  }

  /** Node "325" (lines 649-656). */
  function Node325(input: Request): (n: Node)
    ensures LinksWithin(n, Keys) && LinksBelow(n, Rank(325), Rank)
    ensures Defined(n)
  {
    Node("ImpactConditionalBranch", map[
      "cond" := Ref(324, 0),
      "tt_value" := Ref(336, 0),
      "ff_value" := Ref(254, 0)])
  }

  /** Node "327" (lines 657-672). */
  function Node327(input: Request): (n: Node)
    ensures LinksWithin(n, Keys) && LinksBelow(n, Rank(327), Rank)
    ensures Defined(n)
  {
    Node("SAM2Segment", map[
      "prompt" := S(input.sam_prompt),
      "sam2_model" := S(input.sam2_model),
      "dino_model" := S(input.dino_model),
      "device" := S("Auto"),
      "threshold" := R(input.sam_threshold),
      "mask_blur" := R(input.sam_mask_blur),
      "mask_offset" := R(input.sam_mask_offset),
      "invert_output" := B(input.sam_invert_output),
      "background" := S("Color"),
      "background_color" := S(input.sam_background_color),
      "image" := Ref(254, 0)])
  }

  /** Node "331" (lines 673-684). */
  function Node331(input: Request): (n: Node)
    ensures LinksWithin(n, Keys) && LinksBelow(n, Rank(331), Rank)
    ensures MaskEnhancerGiven(input) ==> Defined(n)
  {
    Node("AILab_MaskEnhancer", map[
      "sensitivity" := RealOrUndefined(input.mask_enhancer_sensitivity),
      "mask_blur" := RealOrUndefined(input.mask_enhancer_blur),
      "mask_offset" := RealOrUndefined(input.mask_enhancer_offset),
      "smooth" := RealOrUndefined(input.mask_enhancer_smooth),
      "fill_holes" := BoolOrUndefined(input.mask_enhancer_fill_holes),
      "invert_output" := BoolOrUndefined(input.mask_enhancer_invert_output),
      "mask" := Ref(327, 1)])
  }

  /** Node "336" (lines 685-693). */
  function Node336(input: Request): (n: Node)
    ensures LinksWithin(n, Keys) && LinksBelow(n, Rank(336), Rank)
    ensures Defined(n)
  {
    Node("AILab_MaskOverlay", map[
      "mask_opacity" := N(1),
      "mask_color" := S(input.sam_background_color),
      "image" := Ref(254, 0),
      "mask" := Ref(341, 0)])
  }

  /** Node "340" (lines 694-704). */
  function Node340(input: Request): (n: Node)
    ensures LinksWithin(n, Keys) && LinksBelow(n, Rank(340), Rank)
    ensures Defined(n)
  {
    Node("MaskFix+", map[
      "erode_dilate" := R(input.mask_fix_erode_dilate),
      "fill_holes" := R(input.mask_fix_fill_holes),
      "remove_isolated_pixels" := R(input.mask_fix_remove_isolated),
      "smooth" := R(input.mask_fix_smooth),
      "blur" := R(input.mask_fix_blur),
      "mask" := Ref(327, 1)])
  }

  /** Node "341" (lines 705-712). */
  function Node341(input: Request): (n: Node)
    ensures LinksWithin(n, Keys) && LinksBelow(n, Rank(341), Rank)
    ensures Defined(n)
  {
    Node("AILab_MaskCombiner", map[
      "mode" := S("combine"),
      "mask_1" := Ref(327, 1),
      "mask_2" := Ref(340, 0)])
  }

  /** The node under key `k`; keys outside `Keys` get an empty placeholder that `Generate` never uses. */
  function NodeAt(input: Request, k: NodeId): Node {
    match k
    case 37 => Node37(input)
    case 38 => Node38(input)
    case 66 => Node66(input)
    case 75 => Node75(input)
    case 78 => Node78(input)
    case 88 => Node88(input)
    case 118 => Node118(input)
    case 120 => Node120(input)
    case 123 => Node123(input)
    case 128 => Node128(input)
    case 129 => Node129(input)
    case 148 => Node148(input)
    case 151 => Node151(input)
    case 152 => Node152(input)
    case 153 => Node153(input)
    case 154 => Node154(input)
    case 167 => Node167(input)
    case 168 => Node168(input)
    case 177 => Node177(input)
    case 183 => Node183(input)
    case 184 => Node184(input)
    case 191 => Node191(input)
    case 192 => Node192(input)
    case 219 => Node219(input)
    case 227 => Node227(input)
    case 228 => Node228(input)
    case 231 => Node231(input)
    case 247 => Node247(input)
    case 252 => Node252(input)
    case 253 => Node253(input)
    case 254 => Node254(input)
    case 255 => Node255(input)
    case 261 => Node261(input)
    case 263 => Node263(input)
    case 269 => Node269(input)
    case 270 => Node270(input)
    case 274 => Node274(input)
    case 282 => Node282(input)
    case 285 => Node285(input)
    case 286 => Node286(input)
    case 303 => Node303(input)
    case 304 => Node304(input)
    case 312 => Node312(input)
    case 318 => Node318(input)
    case 319 => Node319(input)
    case 320 => Node320(input)
    case 321 => Node321(input)
    case 324 => Node324(input)
    case 325 => Node325(input)
    case 327 => Node327(input)
    case 331 => Node331(input)
    case 336 => Node336(input)
    case 340 => Node340(input)
    case 341 => Node341(input)
    case _ => Node("", map[])
  }

  /** `generateWorkflow(input)` (lines 230-715). */
  function Generate(input: Request): Graph
  {
    map k | k in Keys :: NodeAt(input, k)
  }

  /** The prompt has a node under exactly the keys of `Keys`, and `NodeAt(input, k)` is that node. */
  lemma GenerateAt(input: Request, k: NodeId)
    ensures k in Generate(input) <==> k in Keys
    ensures k in Keys ==> Generate(input)[k] == NodeAt(input, k)
  {
  }

  /** Each node links only to nodes of the prompt of lower rank, and reads no undefined value unless it is node "331". */
  lemma NodeShape(input: Request, k: NodeId)
    requires k in Keys
    ensures LinksWithin(NodeAt(input, k), Keys) && LinksBelow(NodeAt(input, k), Rank(k), Rank)
    ensures k != 331 || MaskEnhancerGiven(input) ==> Defined(NodeAt(input, k))
  {
  }

  /** `Rank` ranks the prompt, and no input of the prompt is undefined once the fields node "331" reads are given. */
  lemma WellFormed(input: Request)
    ensures RankedBy(Generate(input), Rank)
    ensures MaskEnhancerGiven(input) ==> AllDefined(Generate(input))
  {
    forall k | k in Keys
      ensures LinksWithin(NodeAt(input, k), Keys) && LinksBelow(NodeAt(input, k), Rank(k), Rank)
      ensures k != 331 || MaskEnhancerGiven(input) ==> Defined(NodeAt(input, k))
    {
      NodeShape(input, k);
    }
  }

  /** Every link of the prompt names one of its nodes, and no chain of links is circular. */
  lemma ClosedAndAcyclic(input: Request)
    ensures Closed(Generate(input)) && Acyclic(Generate(input))
  {
    WellFormed(input);
    RankedIsClosedAndAcyclic(Generate(input), Rank);
  }
}
