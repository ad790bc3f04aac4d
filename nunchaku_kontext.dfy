/** `RequestSchema` of api-workflows/nunchaku_kontext.ts: the request fields, their bounds and defaults. */
module NunchakuKontextRequest {
  import opened Wrappers
  import opened JsonValue
  import opened Zod

  /** A request as `RequestSchema` (lines 6-55) returns it, every default filled in. */
  datatype Request = Request(
    image: string,
    prompt: string,
    seed: int,
    steps: int,
    cfg_scale: real,
    sampler_name: string,
    scheduler: string,
    denoise: real,
    model_name: string,
    clip_name_1: string,
    clip_name_2: string,
    vae_name: string)

  /** The bounds and enum memberships that `RequestSchema` checks. */
  predicate Valid(input: Request, config: Config) {
    && 1 <= input.steps <= 100
    && 0.0 <= input.cfg_scale <= 20.0
    && input.sampler_name in config.samplers
    && input.scheduler in config.schedulers
    && 0.0 <= input.denoise <= 1.0
  }

  // The string defaults that `RequestSchema` declares with `.default(...)`.
  const PromptDefault := "replace background with beach scene"
  const SamplerNameDefault := "euler"
  const SchedulerDefault := "simple"
  const ModelNameDefault := "svdq-int4_r32-flux.1-kontext-dev.safetensors"
  const ClipName1Default := "clip_l.safetensors"
  const ClipName2Default := "t5xxl_fp8_e4m3fn_scaled.safetensors"
  const VaeNameDefault := "ae.safetensors"

  /**
   * `RequestSchema.parse(raw)`, or `None` where zod throws. `drawnSeed` stands for the
   * random default of `seed`.
   */
  function Parse(raw: map<string, Json>, config: Config, drawnSeed: int): Option<Request>
  {
    var image := ReadString(raw, "image", None);
    var prompt := ReadString(raw, "prompt", Some(PromptDefault));
    var seed := ReadInt(raw, "seed", Some(drawnSeed), None, None);
    var steps := ReadInt(raw, "steps", Some(20), Some(1), Some(100));
    var cfg_scale := ReadNumber(raw, "cfg_scale", Some(2.5), Some(0.0), Some(20.0));
    var sampler_name := ReadEnum(raw, "sampler_name", config.samplers, Some(SamplerNameDefault));
    var scheduler := ReadEnum(raw, "scheduler", config.schedulers, Some(SchedulerDefault));
    var denoise := ReadNumber(raw, "denoise", Some(1.0), Some(0.0), Some(1.0));
    var model_name := ReadString(raw, "model_name", Some(ModelNameDefault));
    var clip_name_1 := ReadString(raw, "clip_name_1", Some(ClipName1Default));
    var clip_name_2 := ReadString(raw, "clip_name_2", Some(ClipName2Default));
    var vae_name := ReadString(raw, "vae_name", Some(VaeNameDefault));
    if image.Some?
      && prompt.Some?
      && seed.Some?
      && steps.Some?
      && cfg_scale.Some?
      && sampler_name.Some?
      && scheduler.Some?
      && denoise.Some?
      && model_name.Some?
      && clip_name_1.Some?
      && clip_name_2.Some?
      && vae_name.Some? then
      Some(Request(
        image.value,
        prompt.value,
        seed.value,
        steps.value,
        cfg_scale.value,
        sampler_name.value,
        scheduler.value,
        denoise.value,
        model_name.value,
        clip_name_1.value,
        clip_name_2.value,
        vae_name.value))
    else
      None
  }

  /** Whatever `RequestSchema` accepts satisfies its bounds and enum memberships. */
  lemma ParsedIsValid(raw: map<string, Json>, config: Config, drawnSeed: int)
    ensures var r := Parse(raw, config, drawnSeed); r.Some? ==> Valid(r.value, config)
  {
  }

  /**
   * An accepted request carries the value the caller sent under every declared key, and the
   * declared default under every key the caller left out.
   */
  lemma ParsedFields(raw: map<string, Json>, config: Config, drawnSeed: int)
    ensures var r := Parse(raw, config, drawnSeed); r.Some? ==>
      && StringFrom(raw, "image", None, r.value.image)
      && StringFrom(raw, "prompt", Some(PromptDefault), r.value.prompt)
      && IntFrom(raw, "seed", Some(drawnSeed), r.value.seed)
      && IntFrom(raw, "steps", Some(20), r.value.steps)
      && NumberFrom(raw, "cfg_scale", Some(2.5), r.value.cfg_scale)
      && StringFrom(raw, "sampler_name", Some(SamplerNameDefault), r.value.sampler_name)
      && StringFrom(raw, "scheduler", Some(SchedulerDefault), r.value.scheduler)
      && NumberFrom(raw, "denoise", Some(1.0), r.value.denoise)
      && StringFrom(raw, "model_name", Some(ModelNameDefault), r.value.model_name)
      && StringFrom(raw, "clip_name_1", Some(ClipName1Default), r.value.clip_name_1)
      && StringFrom(raw, "clip_name_2", Some(ClipName2Default), r.value.clip_name_2)
      && StringFrom(raw, "vae_name", Some(VaeNameDefault), r.value.vae_name)
  {
    ReadStringSpec(raw, "image", None);
    ReadStringSpec(raw, "prompt", Some(PromptDefault));
    ReadIntSpec(raw, "seed", Some(drawnSeed), None, None);
    ReadIntSpec(raw, "steps", Some(20), Some(1), Some(100));
    ReadNumberSpec(raw, "cfg_scale", Some(2.5), Some(0.0), Some(20.0));
    ReadEnumSpec(raw, "sampler_name", config.samplers, Some(SamplerNameDefault));
    ReadEnumSpec(raw, "scheduler", config.schedulers, Some(SchedulerDefault));
    ReadNumberSpec(raw, "denoise", Some(1.0), Some(0.0), Some(1.0));
    ReadStringSpec(raw, "model_name", Some(ModelNameDefault));
    ReadStringSpec(raw, "clip_name_1", Some(ClipName1Default));
    ReadStringSpec(raw, "clip_name_2", Some(ClipName2Default));
    ReadStringSpec(raw, "vae_name", Some(VaeNameDefault));
  }

  /** Every key `RequestSchema` declares passes its check; a key without a default must be present. */
  predicate KeysPass(raw: map<string, Json>, config: Config, drawnSeed: int) {
    && StringPasses(raw, "image", None)
    && StringPasses(raw, "prompt", Some(PromptDefault))
    && IntPasses(raw, "seed", Some(drawnSeed), None, None)
    && IntPasses(raw, "steps", Some(20), Some(1), Some(100))
    && NumberPasses(raw, "cfg_scale", Some(2.5), Some(0.0), Some(20.0))
    && EnumPasses(raw, "sampler_name", config.samplers, Some(SamplerNameDefault))
    && EnumPasses(raw, "scheduler", config.schedulers, Some(SchedulerDefault))
    && NumberPasses(raw, "denoise", Some(1.0), Some(0.0), Some(1.0))
    && StringPasses(raw, "model_name", Some(ModelNameDefault))
    && StringPasses(raw, "clip_name_1", Some(ClipName1Default))
    && StringPasses(raw, "clip_name_2", Some(ClipName2Default))
    && StringPasses(raw, "vae_name", Some(VaeNameDefault))
  }

  /** A request `RequestSchema` accepts passes every key check. */
  lemma AcceptedKeysPass(raw: map<string, Json>, config: Config, drawnSeed: int)
    requires Parse(raw, config, drawnSeed).Some?
    ensures KeysPass(raw, config, drawnSeed)
  {
    ReadStringSpec(raw, "image", None);
    ReadStringSpec(raw, "prompt", Some(PromptDefault));
    ReadIntSpec(raw, "seed", Some(drawnSeed), None, None);
    ReadIntSpec(raw, "steps", Some(20), Some(1), Some(100));
    ReadNumberSpec(raw, "cfg_scale", Some(2.5), Some(0.0), Some(20.0));
    ReadEnumSpec(raw, "sampler_name", config.samplers, Some(SamplerNameDefault));
    ReadEnumSpec(raw, "scheduler", config.schedulers, Some(SchedulerDefault));
    ReadNumberSpec(raw, "denoise", Some(1.0), Some(0.0), Some(1.0));
    ReadStringSpec(raw, "model_name", Some(ModelNameDefault));
    ReadStringSpec(raw, "clip_name_1", Some(ClipName1Default));
    ReadStringSpec(raw, "clip_name_2", Some(ClipName2Default));
    ReadStringSpec(raw, "vae_name", Some(VaeNameDefault));
  }

  /** A request that passes every key check is accepted. */
  lemma PassingKeysAccepted(raw: map<string, Json>, config: Config, drawnSeed: int)
    requires KeysPass(raw, config, drawnSeed)
    ensures Parse(raw, config, drawnSeed).Some?
  {
    ReadStringSpec(raw, "image", None);
    ReadStringSpec(raw, "prompt", Some(PromptDefault));
    ReadIntSpec(raw, "seed", Some(drawnSeed), None, None);
    ReadIntSpec(raw, "steps", Some(20), Some(1), Some(100));
    ReadNumberSpec(raw, "cfg_scale", Some(2.5), Some(0.0), Some(20.0));
    ReadEnumSpec(raw, "sampler_name", config.samplers, Some(SamplerNameDefault));
    ReadEnumSpec(raw, "scheduler", config.schedulers, Some(SchedulerDefault));
    ReadNumberSpec(raw, "denoise", Some(1.0), Some(0.0), Some(1.0));
    ReadStringSpec(raw, "model_name", Some(ModelNameDefault));
    ReadStringSpec(raw, "clip_name_1", Some(ClipName1Default));
    ReadStringSpec(raw, "clip_name_2", Some(ClipName2Default));
    ReadStringSpec(raw, "vae_name", Some(VaeNameDefault));
  }

  /**
   * `RequestSchema` accepts a request exactly when every declared key passes its check: the
   * declared JSON type, the bounds, `.int()` and the enum, with a missing key taking its
   * default and a key without a default required.
   */
  lemma ParseAccepts(raw: map<string, Json>, config: Config, drawnSeed: int)
    ensures Parse(raw, config, drawnSeed).Some? <==> KeysPass(raw, config, drawnSeed)
  {
    if Parse(raw, config, drawnSeed).Some? {
      AcceptedKeysPass(raw, config, drawnSeed);
    }
    if KeysPass(raw, config, drawnSeed) {
      PassingKeysAccepted(raw, config, drawnSeed);
    }
  }

}

/** `generateWorkflow` of api-workflows/nunchaku_kontext.ts as a prompt graph. */
module NunchakuKontext {
  import opened Wrappers
  import opened ComfyGraph
  import opened NunchakuKontextRequest

  /** The keys of the prompt's nodes. */
  const Keys: set<NodeId> := {6, 8, 31, 35, 38, 39, 42, 124, 135, 136, 142, 146, 177, 189}

  /**
   * A topological rank: each node links only to nodes of lower rank. Written as a search
   * over the sorted keys, so that evaluating it at one key takes a few comparisons.
   */
  function Rank(k: NodeId): nat {
    if k < 124 then
      if k < 35 then
        if k < 8 then
          1
        else
          if k < 31 then
            7
          else
            6
      else
        if k < 39 then
          if k < 38 then
            5
          else
            0
        else
          if k < 42 then
            0
          else
            2
    else
      if k < 142 then
        if k < 135 then
          3
        else
          if k < 136 then
            2
          else
            8
      else
        if k < 177 then
          if k < 146 then
            0
          else
            1
        else
          if k < 189 then
            4
          else
            0
  }

  /** Node "6" (lines 61-67). */
  function Node6(input: Request): (n: Node)
    ensures LinksWithin(n, Keys) && LinksBelow(n, Rank(6), Rank)
    ensures Defined(n)
  {
    Node("CLIPTextEncode", map[
      "text" := S(input.prompt),
      "clip" := Ref(38, 0)])
  }

  /** Node "8" (lines 68-74). */
  function Node8(input: Request): (n: Node)
    ensures LinksWithin(n, Keys) && LinksBelow(n, Rank(8), Rank)
    ensures Defined(n)
  {
    Node("VAEDecode", map[
      "samples" := Ref(31, 0),
      "vae" := Ref(39, 0)])
  }

  /** Node "31" (lines 75-89). */
  function Node31(input: Request): (n: Node)
    ensures LinksWithin(n, Keys) && LinksBelow(n, Rank(31), Rank)
    ensures Defined(n)
  {
    Node("KSampler", map[
      "seed" := N(input.seed),
      "steps" := N(input.steps),
      "cfg" := N(1),
      "sampler_name" := S(input.sampler_name),
      "scheduler" := S(input.scheduler),
      "denoise" := R(input.denoise),
      "model" := Ref(189, 0),
      "positive" := Ref(35, 0),
      "negative" := Ref(135, 0),
      "latent_image" := Ref(124, 0)])
  }

  /** Node "35" (lines 90-96). */
  function Node35(input: Request): (n: Node)
    ensures LinksWithin(n, Keys) && LinksBelow(n, Rank(35), Rank)
    ensures Defined(n)
  {
    Node("FluxGuidance", map[
      "guidance" := R(input.cfg_scale),
      "conditioning" := Ref(177, 0)])
  }

  /** Node "38" (lines 97-105). */
  function Node38(input: Request): (n: Node)
    ensures LinksWithin(n, Keys) && LinksBelow(n, Rank(38), Rank)
    ensures Defined(n)
  {
    Node("DualCLIPLoader", map[
      "clip_name1" := S(input.clip_name_1),
      "clip_name2" := S(input.clip_name_2),
      "type" := S("flux"),
      "device" := S("default")])
  }

  /** Node "39" (lines 106-111). */
  function Node39(input: Request): (n: Node)
    ensures LinksWithin(n, Keys) && LinksBelow(n, Rank(39), Rank)
    ensures Defined(n)
  {
    Node("VAELoader", map[
      "vae_name" := S(input.vae_name)])
  }

  /** Node "42" (lines 112-117). */
  function Node42(input: Request): (n: Node)
    ensures LinksWithin(n, Keys) && LinksBelow(n, Rank(42), Rank)
    ensures Defined(n)
  {
    Node("FluxKontextImageScale", map[
      "image" := Ref(146, 0)])
  }

  /** Node "124" (lines 118-124). */
  function Node124(input: Request): (n: Node)
    ensures LinksWithin(n, Keys) && LinksBelow(n, Rank(124), Rank)
    ensures Defined(n)
  {
    Node("VAEEncode", map[
      "pixels" := Ref(42, 0),
      "vae" := Ref(39, 0)])
  }

  /** Node "135" (lines 125-130). */
  function Node135(input: Request): (n: Node)
    ensures LinksWithin(n, Keys) && LinksBelow(n, Rank(135), Rank)
    ensures Defined(n)
  {
    Node("ConditioningZeroOut", map[
      "conditioning" := Ref(6, 0)])
  }

  /** Node "136" (lines 131-137). */
  function Node136(input: Request): (n: Node)
    ensures LinksWithin(n, Keys) && LinksBelow(n, Rank(136), Rank)
    ensures Defined(n)
  {
    Node("SaveImage", map[
      "filename_prefix" := S("ComfyUI"),
      "images" := Ref(8, 0)])
  }

  /** Node "142" (lines 138-144). */
  function Node142(input: Request): (n: Node)
    ensures LinksWithin(n, Keys) && LinksBelow(n, Rank(142), Rank)
    ensures Defined(n)
  {
    Node("LoadImage", map[
      "image" := S(input.image),
      "choose file to upload" := S("image")])
  }

  /** Node "146" (lines 145-154). */
  function Node146(input: Request): (n: Node)
    ensures LinksWithin(n, Keys) && LinksBelow(n, Rank(146), Rank)
    ensures Defined(n)
  {
    Node("ImageStitch", map[
      "direction" := S("right"),
      "match_image_size" := B(true),
      "spacing_width" := N(0),
      "spacing_color" := S("white"),
      "image1" := Ref(142, 0)])
  }

  /** Node "177" (lines 155-161). */
  function Node177(input: Request): (n: Node)
    ensures LinksWithin(n, Keys) && LinksBelow(n, Rank(177), Rank)
    ensures Defined(n)
  {
    Node("ReferenceLatent", map[
      "conditioning" := Ref(6, 0),
      "latent" := Ref(124, 0)])
  }

  /** Node "189" (lines 162-173). */
  function Node189(input: Request): (n: Node)
    ensures LinksWithin(n, Keys) && LinksBelow(n, Rank(189), Rank)
    ensures Defined(n)
  {
    Node("NunchakuFluxDiTLoader", map[
      "model_path" := S(input.model_name),
      "cache_threshold" := N(0),
      "attention" := S("nunchaku-fp16"),
      "cpu_offload" := S("auto"),
      "device_id" := N(0),
      "data_type" := S("bfloat16"),
      "i2f_mode" := S("enabled")])
  }

  /** The node under key `k`; keys outside `Keys` get an empty placeholder that `Generate` never uses. */
  function NodeAt(input: Request, k: NodeId): Node {
    match k
    case 6 => Node6(input)
    case 8 => Node8(input)
    case 31 => Node31(input)
    case 35 => Node35(input)
    case 38 => Node38(input)
    case 39 => Node39(input)
    case 42 => Node42(input)
    case 124 => Node124(input)
    case 135 => Node135(input)
    case 136 => Node136(input)
    case 142 => Node142(input)
    case 146 => Node146(input)
    case 177 => Node177(input)
    case 189 => Node189(input)
    case _ => Node("", map[])
  }

  /** `generateWorkflow(input)` (lines 59-176). */
  function Generate(input: Request): Graph
  {
    map k | k in Keys :: NodeAt(input, k)
  }

  /** The prompt has a node under exactly the keys of `Keys`, and `NodeAt(input, k)` is that node. */
  lemma GenerateAt(input: Request, k: NodeId)
    ensures k in Generate(input) <==> k in Keys
    ensures k in Keys ==> Generate(input)[k] == NodeAt(input, k)
  {
  }

  /** Each node links only to nodes of the prompt of lower rank, and reads no undefined value. */
  lemma NodeShape(input: Request, k: NodeId)
    requires k in Keys
    ensures LinksWithin(NodeAt(input, k), Keys) && LinksBelow(NodeAt(input, k), Rank(k), Rank)
    ensures Defined(NodeAt(input, k))
  {
  }

  /** `Rank` ranks the prompt, and no input of the prompt is undefined. */
  lemma WellFormed(input: Request)
    ensures RankedBy(Generate(input), Rank)
    ensures AllDefined(Generate(input))
  {
    forall k | k in Keys
      ensures LinksWithin(NodeAt(input, k), Keys) && LinksBelow(NodeAt(input, k), Rank(k), Rank)
      ensures Defined(NodeAt(input, k))
    {
      NodeShape(input, k);
    }
  }

  /** Every link of the prompt names one of its nodes, and no chain of links is circular. */
  lemma ClosedAndAcyclic(input: Request)
    ensures Closed(Generate(input)) && Acyclic(Generate(input))
  {
    WellFormed(input);
    RankedIsClosedAndAcyclic(Generate(input), Rank);
  }
}
