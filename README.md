# Workflow builders and RunPod request checks, modelled in Dafny

This project models two parts of the ComfyUI API wrapper.

**The ten API workflow builders** (`api-workflows/*.ts`). Each one has two parts:

- a zod `RequestSchema`, which turns a JSON request into typed fields;
- a `generateWorkflow`, which turns those fields into a ComfyUI prompt. The prompt is a map from node ids to nodes. Each node has a `class_type` and `inputs`, and an input is a literal or a link `[id, slot]` to another node's output.

For each builder there are two Dafny modules:

- `<Builder>Request` holds the parsed request as a datatype and the schema's checks as `Valid`. `Parse` follows zod's rules field by field, using the readers in `Zod`: defaults, bounds, `.int()`, enums taken from the configuration, and unknown keys stripped. It returns `None` where zod throws. `ParseAccepts` says which requests are accepted, `ParsedFields` what an accepted request holds, and `ParsedIsValid` that it meets `Valid`.
- `<Builder>` holds one function per node (`Node37(input)`) and `Generate(input)`, the whole prompt. `Rank` gives every node a rank, and every link goes to a node of lower rank. Each node function's own `ensures` states that its links stay inside the prompt and go down in rank. `ComfyGraph` turns that into "every link is closed and no chain of links is circular".

A property that says "field X reaches only node K" is stated as an update: changing X in the request changes node K's one input and leaves every other node equal. Node ids are the numerals of the source's string keys, as natural numbers.

`Undefined` is a JavaScript `undefined` placed into a node's inputs. It arises where a builder reads a field that its schema never declares. `AllDefined` says that no node reads one.

**The RunPod worker's request checks** (`docker/runpod/src/rp_handler.py`). The module `RunpodHandler` covers:

- `validate_input`, modelled as a function over JSON values with `json.loads` as a parameter;
- the part of `handler` that answers a failed validation or forwards the validated `endpoint` and `body`;
- `init_failed` and `adjust_concurrency`.

Python exceptions are modelled as an explicit `Raises` outcome.

Two points where the code and its own description part ways:

- `qwen_edit_3loras_2outputs.ts` describes itself as generating 3 variations (line 346). Its prompt has exactly two `SaveImage` nodes, which `QwenEdit3Loras2OutputsProperties.TwoOutputs` proves.
- `nunchaku_qwen_edit_sam2.ts` builds node "331" from six fields its schema does not declare. See "## Findings".

## Model

| member | source | states |
|---|---|---|
| Zod.ReadStringSpec | api-workflows/qwen_edit_rmbg.ts:7-13 | `z.string()`: a string the caller sends is taken as is; any other JSON value is rejected; an absent key yields the `.default` (or a rejection when there is none); so the reader succeeds exactly when `StringPasses` holds, with the value `StringFrom` describes |
| Zod.ReadEnum | api-workflows/qwen_edit_rmbg.ts:35-38 | an accepted enum value is one of the configuration's names |
| Zod.ReadEnumSpec | api-workflows/qwen_edit_rmbg.ts:35-38 | an enum field is accepted exactly when the sent string, or the default when the key is absent, is one of the allowed names (`EnumPasses`); the result is that name |
| Zod.ReadNumber | api-workflows/qwen_edit_rmbg.ts:28-34 | an accepted number lies within its `.min`/`.max` bounds |
| Zod.ReadNumberSpec | api-workflows/qwen_edit_rmbg.ts:28-34 | a number is accepted exactly when the sent value (or the default when absent) is a JSON number within the bounds (`NumberPasses`); the result is that number (`NumberFrom`) |
| Zod.ReadInt | api-workflows/qwen_edit_rmbg.ts:20-27 | an accepted `.int()` value lies within its bounds |
| Zod.ReadIntSpec | api-workflows/qwen_edit_rmbg.ts:14-27 | an `.int()` field is accepted exactly when the sent number has no fractional part and lies within the bounds; an absent key yields the default when that is within the bounds (`IntPasses`, `IntFrom`) |
| Zod.ReadBoolSpec | api-workflows/qwen_edit_conditions.ts:78-81 | `z.boolean()`: a boolean is taken as is; any other JSON value is rejected; an absent key yields the default (`BoolPasses`, `BoolFrom`) |
| ComfyGraph.LinkDescends | api-workflows/nunchaku_qwen_edit_sam2.ts:283-288 | in a ranked prompt, a link `[j, slot]` of node i (such as `seed: ["274", 3]` of sampler "118") names a present node j of lower rank than i |
| ComfyGraph.RankFallsAlongPath | api-workflows/nunchaku_qwen_edit_sam2.ts:502-712 | along any chain of links in a ranked prompt the rank strictly falls, so the last node of a chain ranks below the first |
| ComfyGraph.RankedIsClosedAndAcyclic | api-workflows/nunchaku_qwen_edit_sam2.ts:231-713 | a ranked prompt has every link closed and no circular chain of links |
| FluxKontextDevBasicProperties.PromptOnlyAt6 | api-workflows/flux_kontext_dev_basic.ts:69-78 | the prompt is copied only into the `text` of encoder "6"; changing it changes no other node |
| FluxKontextDevBasicProperties.ImageOnlyAt142 | api-workflows/flux_kontext_dev_basic.ts:184-193 | the image is copied only into the `image` of loader "142" |
| FluxKontextDevBasicProperties.CfgScaleIsGuidance | api-workflows/flux_kontext_dev_basic.ts:89-116 | `cfg_scale` reaches only the `guidance` of FluxGuidance "35", which is the sampler's positive input; the KSampler's own `cfg` is the literal 1 |
| FluxKontextDevBasicProperties.CheckpointIsUnetName | api-workflows/flux_kontext_dev_basic.ts:117-125 | `checkpoint` becomes the `unet_name` of UNETLoader "37", whose model the sampler uses |
| FluxKontextDevBasicProperties.FixedEncoderFiles | api-workflows/flux_kontext_dev_basic.ts:126-145 | the CLIP loader "38" and the VAE loader "39" are the same for every request, with the fixed file names |
| ImageQwenImageEdit3Loras3OutputsProperties.SamplersUseDistinctSeeds | api-workflows/image_qwen_image_edit_3loras_3outputs.ts:109-329 | samplers "3", "103" and "106" get seeds `seed`, `seed+1` and `seed+2`, pairwise distinct |
| ImageQwenImageEdit3Loras3OutputsProperties.SecondPassOnlyReseeds | api-workflows/image_qwen_image_edit_3loras_3outputs.ts:274-291 | sampler "103" is sampler "3" with only the seed changed to `seed+1`; both use model 75, positive 76, negative 77 and latent 88 |
| ImageQwenImageEdit3Loras3OutputsProperties.ThirdPassOnlyReseeds | api-workflows/image_qwen_image_edit_3loras_3outputs.ts:312-329 | sampler "106" is sampler "3" with only the seed changed to `seed+2` |
| ImageQwenImageEdit3Loras3OutputsProperties.ThreeOutputs | api-workflows/image_qwen_image_edit_3loras_3outputs.ts:107-362 | the SaveImage nodes of the prompt are exactly "60", "105" and "108" |
| ImageQwenImageEdit3Loras3OutputsProperties.WhatEachOutputSaves | api-workflows/image_qwen_image_edit_3loras_3outputs.ts:127-349 | each SaveImage saves its own VAEDecode, and each decode reads its own sampler (60←8←3, 105←104←103, 108←107←106) |
| ImageQwenImageEdit3Loras3OutputsProperties.LoraChain | api-workflows/image_qwen_image_edit_3loras_3outputs.ts:177-360 | the model chain is 37→101→102→109→66→75, with LoRAs 1, 2 and 3 at 101, 102 and 109 |
| ImageQwenImageEdit3Loras3OutputsProperties.PromptOnlyAt76 | api-workflows/image_qwen_image_edit_3loras_3outputs.ts:197-208 | the prompt reaches only the `prompt` of encoder "76" |
| ImageQwenImageEdit3Loras3OutputsProperties.NegativePromptOnlyAt77 | api-workflows/image_qwen_image_edit_3loras_3outputs.ts:209-220 | `negative_prompt` reaches only the `prompt` of encoder "77" |
| KontextDevProperties.SeedOnlyAt197 | api-workflows/kontext_dev.ts:305-310 | the seed is written only into Seed node "197" |
| KontextDevProperties.SeedReadFrom197 | api-workflows/kontext_dev.ts:136-310 | sampler "31" and wildcard node "195" both read the seed as `["197", 3]` |
| KontextDevProperties.PromptOnlyAt191 | api-workflows/kontext_dev.ts:257-262 | the prompt reaches only the `text` of node "191" |
| KontextDevProperties.PromptPath | api-workflows/kontext_dev.ts:257-304 | the text pipeline is 191→192→195→193→194→6 |
| KontextDevProperties.OneOutput | api-workflows/kontext_dev.ts:120-344 | "136" is the only SaveImage node |
| KontextDevProperties.RestoreFaceSwitch | api-workflows/kontext_dev.ts:311-341 | output "136" saves switch "200"; its condition is test "201", its true value face restore "202" (which reads decode 8), its false value decode 8 |
| KontextDevProperties.RestoreFaceTest | api-workflows/kontext_dev.ts:319-326 | test "201" looks for `<restoreface>` in node "193", ignoring case |
| KontextDevProperties.LoraSlots | api-workflows/kontext_dev.ts:230-256 | apart from `model` and `clip`, TooManyLoras "190" holds exactly `lora_0i`/`strength_0i` (`lora_10`/`strength_10`) from LoRA slot i of the request |
| KontextDevProperties.LoraOutputsUsed | api-workflows/kontext_dev.ts:122-150 | the sampler takes its model from `["190", 0]` and encoder "6" its clip from `["190", 1]` |
| NunchakuKontextProperties.CfgScaleIsGuidance | api-workflows/nunchaku_kontext.ts:75-96 | `cfg_scale` reaches only the `guidance` of FluxGuidance "35"; the KSampler's `cfg` is the literal 1 |
| NunchakuKontextProperties.ModelNameIsModelPath | api-workflows/nunchaku_kontext.ts:162-173 | `model_name` reaches only the `model_path` of loader "189" |
| NunchakuKontextProperties.LoaderDependsOnlyOnModelName | api-workflows/nunchaku_kontext.ts:162-173 | two requests with the same `model_name` get the same loader "189": its other inputs are literals |
| NunchakuKontextProperties.SamplerSeedAndModel | api-workflows/nunchaku_kontext.ts:75-89 | KSampler "31" takes the request's seed directly and its model from `["189", 0]` |
| NunchakuKontextProperties.EncoderFiles | api-workflows/nunchaku_kontext.ts:97-111 | `clip_name_1`/`clip_name_2` become `clip_name1`/`clip_name2` of "38", and `vae_name` goes to "39" |
| NunchakuQwenEditConditionsProperties.ExtraImagesUnused | api-workflows/nunchaku_qwen_edit_conditions.ts:10-17 | `image_2` and `image_3` are accepted but the prompt does not depend on them |
| NunchakuQwenEditConditionsProperties.SeedOnlyAt274 | api-workflows/nunchaku_qwen_edit_conditions.ts:517-523 | the seed is written only into Seed node "274" |
| NunchakuQwenEditConditionsProperties.SeedReadFrom274 | api-workflows/nunchaku_qwen_edit_conditions.ts:252-531 | sampler "118" and wildcard "282" read the seed as `["274", 3]` |
| NunchakuQwenEditConditionsProperties.PromptOnlyAt177 | api-workflows/nunchaku_qwen_edit_conditions.ts:369-374 | the prompt reaches only the `text` of node "177" |
| NunchakuQwenEditConditionsProperties.EncoderReadsUntagged | api-workflows/nunchaku_qwen_edit_conditions.ts:289-531 | the encoder's prompt comes through wildcard "282" from the tag-stripped node "184", which reads the cleaned text "183" |
| NunchakuQwenEditConditionsProperties.TagTests | api-workflows/nunchaku_qwen_edit_conditions.ts:399-422 | the `<restoreface>`, `<rmbg>` and `<upscale>` tests all read node "183", ignoring case |
| NunchakuQwenEditConditionsProperties.RestoreFaceBranch | api-workflows/nunchaku_qwen_edit_conditions.ts:451-458 | SaveImage "120" saves switch "247", which is selected by test "191" and chooses between face restore "167" and downscale "293"; "167" itself reads "293" |
| NunchakuQwenEditConditionsProperties.Downscale | api-workflows/nunchaku_qwen_edit_conditions.ts:551-557 | `face_restore_downscale` is the `scale_by` of "293", which scales decode "286" of sampler "118" |
| NunchakuQwenEditConditionsProperties.RmbgBranch | api-workflows/nunchaku_qwen_edit_conditions.ts:459-466 | switch "252" is selected by `<rmbg>` test "192" and chooses between the composited RMBG output and the image "254"; the encoder and the latent both read "252" |
| NunchakuQwenEditConditionsProperties.UpscaleBranch | api-workflows/nunchaku_qwen_edit_conditions.ts:475-516 | switch "254" is selected by `<upscale>` test "219" and chooses between the upscaled image "270" and the resized image "269", which reads loader 78 |
| NunchakuQwenEditConditionsProperties.UpscalerInputBySize | api-workflows/nunchaku_qwen_edit_conditions.ts:483-490 | the upscaler reads switch "255", which is selected by size test "231" and chooses between loader 78 and resize "269" |
| NunchakuQwenEditConditionsProperties.SizeTest | api-workflows/nunchaku_qwen_edit_conditions.ts:429-504 | test "231" is `a < b`, with a = width × height from "228" and b = megapixels × 1048576 from "263" |
| NunchakuQwenEditConditionsProperties.LoraSlots | api-workflows/nunchaku_qwen_edit_conditions.ts:225-251 | TooManyLoras "117" reads loaders 37 and 38, and otherwise holds exactly `lora_0i`/`strength_0i` from LoRA slot i |
| NunchakuQwenEditConditionsProperties.LoraOutputsUsed | api-workflows/nunchaku_qwen_edit_conditions.ts:197-297 | the sampler's model chain 118←75←66 ends at `["117", 0]`, and the encoder's clip is `["117", 1]` |
| NunchakuQwenEditConditionsProperties.OneImageLoader | api-workflows/nunchaku_qwen_edit_conditions.ts:178-560 | "78" is the only LoadImage node of the prompt |
| NunchakuQwenEditConditionsProperties.OneOutput | api-workflows/nunchaku_qwen_edit_conditions.ts:178-560 | "120" is the only SaveImage node of the prompt |
| NunchakuQwenEditSam2Properties.ImageOnlyAt78 | api-workflows/nunchaku_qwen_edit_sam2.ts:263-269 | the image reaches only the `image` of loader "78" |
| NunchakuQwenEditSam2Properties.ExtraImagesReachNoNode | api-workflows/nunchaku_qwen_edit_sam2.ts:230-715 | no node depends on `image_2` or `image_3` |
| NunchakuQwenEditSam2Properties.ExtraImagesUnused | api-workflows/nunchaku_qwen_edit_sam2.ts:10-17 | `image_2` and `image_3` are accepted but the prompt does not depend on them |
| NunchakuQwenEditSam2Properties.PromptOnlyAt177 | api-workflows/nunchaku_qwen_edit_sam2.ts:394-399 | the prompt reaches only the `text` of node "177" |
| NunchakuQwenEditSam2Properties.SeedOnlyAt274 | api-workflows/nunchaku_qwen_edit_sam2.ts:536-542 | the seed is written only into Seed node "274" |
| NunchakuQwenEditSam2Properties.SeedReadFrom274 | api-workflows/nunchaku_qwen_edit_sam2.ts:277-550 | sampler "118" and wildcard "282" read the seed as `["274", 3]` |
| NunchakuQwenEditSam2Properties.TagTests | api-workflows/nunchaku_qwen_edit_sam2.ts:424-648 | the `<restoreface>`, `<rmbg>`, `<upscale>` and `<sam>` tests all read the newline-stripped node "183" |
| NunchakuQwenEditSam2Properties.TagTestsIgnoreCase | api-workflows/nunchaku_qwen_edit_sam2.ts:424-648 | all four tag tests set `case_insensitive` |
| NunchakuQwenEditSam2Properties.SamBranch | api-workflows/nunchaku_qwen_edit_sam2.ts:649-693 | switch "325" is selected by `<sam>` test "324" and chooses between mask overlay "336" over image "254" and "254" itself; "325" is the false branch of the RMBG switch "252", which the encoder reads |
| NunchakuQwenEditSam2Properties.SamMask | api-workflows/nunchaku_qwen_edit_sam2.ts:657-712 | the overlay's mask is "341", which combines the SAM mask `["327", 1]` with its fixed version "340"; "327" segments "254" by `sam_prompt` |
| NunchakuQwenEditSam2Properties.VaeChoice | api-workflows/nunchaku_qwen_edit_sam2.ts:570-612 | `use_vae_utils_loader` is boolean "319", which selects the VAE switch "303" (285 or 304) and the image switch "318" (320 or 312) |
| NunchakuQwenEditSam2Properties.OutputDownscale | api-workflows/nunchaku_qwen_edit_sam2.ts:605-612 | `output_downscale` is the `scale_by` of "320", which scales decode "286" |
| NunchakuQwenEditSam2Properties.RestoreFaceBranch | api-workflows/nunchaku_qwen_edit_sam2.ts:470-477 | SaveImage "120" saves switch "247", which is selected by test "191" and chooses between face restore "167" and image switch "318"; "167" reads "318" |
| NunchakuQwenEditSam2Properties.LoraStackLinks | api-workflows/nunchaku_qwen_edit_sam2.ts:613-640 | LoRA stack "321" has `lora_count` 10 and the request's `lora_cpu_offload`, reads model 37, and feeds node 66 |
| NunchakuQwenEditSam2Properties.LoraStack | api-workflows/nunchaku_qwen_edit_sam2.ts:613-640 | apart from those three inputs, "321" holds exactly `lora_name_i`/`lora_strength_i` from LoRA slot i, for i in 1..10 |
| NunchakuQwenEditSam2Properties.OneImageLoader | api-workflows/nunchaku_qwen_edit_sam2.ts:230-715 | "78" is the only LoadImage node of the prompt |
| NunchakuQwenEditSam2Properties.OneOutput | api-workflows/nunchaku_qwen_edit_sam2.ts:230-715 | "120" is the only SaveImage node of the prompt |
| NunchakuQwenEditSam2Enhancer.ParseDropsEnhancerFields | api-workflows/nunchaku_qwen_edit_sam2.ts:6-226 | the schema does not declare the six `mask_enhancer_*` fields, so every parsed request lacks them |
| NunchakuQwenEditSam2Enhancer.MissingSensitivityIsUndefined | api-workflows/nunchaku_qwen_edit_sam2.ts:673-684 | without `mask_enhancer_sensitivity`, node "331" has an `undefined` `sensitivity` |
| NunchakuQwenEditSam2Enhancer.UndefinedAt331 | api-workflows/nunchaku_qwen_edit_sam2.ts:673-684 | a node "331" with an undefined input makes the whole prompt hold one |
| NunchakuQwenEditSam2Enhancer.ParsedPromptIsNotDefined | api-workflows/nunchaku_qwen_edit_sam2.ts:673-684 | for every request the schema accepts, the prompt holds an undefined input (at "331") |
| NunchakuQwenEditSam2Enhancer.WithEnhancerSpec | api-workflows/nunchaku_qwen_edit_sam2.ts:675-680 | reading the six fields as required numbers and booleans succeeds exactly when they are all present with those types, and then changes the parsed request in those six fields only |
| NunchakuQwenEditSam2Enhancer.CorrectedParseIsValid | api-workflows/nunchaku_qwen_edit_sam2.ts:6-226 | the schema with the six fields declared still accepts only valid requests |
| NunchakuQwenEditSam2Enhancer.DeclaredPromptIsDefined | api-workflows/nunchaku_qwen_edit_sam2.ts:673-684 | once the six fields are read, no node of the prompt has an undefined input |
| NunchakuQwenEditSam2Enhancer.CorrectedPromptIsDefined | api-workflows/nunchaku_qwen_edit_sam2.ts:673-684 | every request the corrected schema accepts gives a prompt with no undefined input |
| QwenEdit3Loras2OutputsProperties.SecondPassOnlyReseeds | api-workflows/qwen_edit_3loras_2outputs.ts:125-307 | sampler "3" uses `seed`, and sampler "103" is "3" with only the seed changed to `seed+1`, so the seeds differ; both use model 75, encoders 76/77 and latent 88 |
| QwenEdit3Loras2OutputsProperties.TwoOutputs | api-workflows/qwen_edit_3loras_2outputs.ts:123-340 | the SaveImage nodes are exactly "60" and "105", saving the decodes of samplers 3 and 103 |
| QwenEdit3Loras2OutputsProperties.LoraChain | api-workflows/qwen_edit_3loras_2outputs.ts:193-338 | the model chain is 37→101→102→109→66→75, with LoRAs 1, 2 and 3 at 101, 102 and 109 |
| QwenEdit3Loras2OutputsProperties.ScalerSettings | api-workflows/qwen_edit_3loras_2outputs.ts:257-267 | `upscale_method` and `megapixels` are copied into scale node "93", which reads loader 78 |
| QwenEdit3Loras2OutputsProperties.PromptOnlyAt76 | api-workflows/qwen_edit_3loras_2outputs.ts:213-224 | the prompt reaches only the `prompt` of encoder "76" |
| QwenEdit3Loras2OutputsProperties.NegativePromptOnlyAt77 | api-workflows/qwen_edit_3loras_2outputs.ts:225-236 | `negative_prompt` reaches only the `prompt` of encoder "77" |
| QwenEditConditionsProperties.TagTests | api-workflows/qwen_edit_conditions.ts:491-604 | the `<restoreface>`, `<rmbg>` and `<upscale>` tests read node "183", ignoring case |
| QwenEditConditionsProperties.TagChoices | api-workflows/qwen_edit_conditions.ts:525-633 | each tag selector (211, 215, 220) maps its test's true to an int node of value 1 and false to one of value 2 |
| QwenEditConditionsProperties.RestoreFaceSwitch | api-workflows/qwen_edit_conditions.ts:513-524 | SaveImage "120" saves switch "205", selected by "211", whose input1 is face restore 167 (over decode 119) and input2 is decode 119 of sampler 118 |
| QwenEditConditionsProperties.RmbgSwitch | api-workflows/qwen_edit_conditions.ts:583-593 | switch "218" is selected by "215" and chooses the RMBG composite or the image "223"; the encoder and the latent read "218" |
| QwenEditConditionsProperties.UpscaleSwitch | api-workflows/qwen_edit_conditions.ts:634-644 | switch "223" is selected by "220" and chooses the upscaled "226" or scale node 93 over loader 78 |
| QwenEditConditionsProperties.UpscalerInputBySize | api-workflows/qwen_edit_conditions.ts:707-746 | the upscaler reads switch "233", selected by "234" (1 or 2 from size test "231"), between loader 78 and scale node 93 |
| QwenEditConditionsProperties.SizeTest | api-workflows/qwen_edit_conditions.ts:676-757 | test "231" is `a <= b`, with a = width × height from "228" and b = "230" × 1000000 from "238" |
| QwenEditConditionsProperties.MegapixelsOnlyAt230 | api-workflows/qwen_edit_conditions.ts:687-695 | `megapixels` reaches only the `value` of node "230" |
| QwenEditConditionsProperties.PromptOnlyAt177 | api-workflows/qwen_edit_conditions.ts:452-460 | the raw prompt reaches only the `text` of node "177" |
| QwenEditConditionsProperties.PromptCleaned | api-workflows/qwen_edit_conditions.ts:439-475 | node "168" splits the raw prompt "177" at `\|`, and node "183" removes the line breaks from the result |
| QwenEditConditionsProperties.EncoderReadsUntagged | api-workflows/qwen_edit_conditions.ts:346-490 | the encoder's prompt is the tag-stripped node "184", which reads "183" |
| QwenEditConditionsProperties.SamplerSeed | api-workflows/qwen_edit_conditions.ts:290-307 | KSampler "118" takes its seed directly from the request |
| QwenEditConditionsProperties.SeedOnlyAt118 | api-workflows/qwen_edit_conditions.ts:290-307 | the seed reaches no node but "118" |
| QwenEditConditionsProperties.LoraSlots | api-workflows/qwen_edit_conditions.ts:260-289 | TooManyLoras "117" reads loaders 37 and 38, and otherwise holds exactly `lora_0i`/`strength_0i` from LoRA slot i |
| QwenEditConditionsProperties.LoraOutputsUsed | api-workflows/qwen_edit_conditions.ts:210-357 | the sampler's model chain 118←75←66 ends at `["117", 0]`, and the encoder's clip is `["117", 1]` |
| QwenEditConditionsProperties.OneImageLoader | api-workflows/qwen_edit_conditions.ts:178-768 | "78" is the only LoadImage node of the prompt |
| QwenEditConditionsProperties.OneOutput | api-workflows/qwen_edit_conditions.ts:178-768 | "120" is the only SaveImage node of the prompt, so switch "205" is the one image saved |
| QwenEditManyLoras1OutputProperties.LoraOnlyInSlot01 | api-workflows/qwen_edit_manyloras_1output.ts:252-281 | slot 01 of TooManyLoras "102" holds the request's LoRA name and strength, and the node reads model loader 37 and CLIP loader 38 |
| QwenEditManyLoras1OutputProperties.LoraReachesOnly102 | api-workflows/qwen_edit_manyloras_1output.ts:107-283 | changing the request's LoRA changes no node but "102" |
| QwenEditManyLoras1OutputProperties.LoraNodeDependsOnlyOnSlot01 | api-workflows/qwen_edit_manyloras_1output.ts:252-281 | two requests with the same LoRA get the same node "102" |
| QwenEditManyLoras1OutputProperties.OtherSlotsSwitchedOff | api-workflows/qwen_edit_manyloras_1output.ts:252-281 | slots 02-10 of "102" are `"None"` with strength 1 |
| QwenEditManyLoras1OutputProperties.OneSampler | api-workflows/qwen_edit_manyloras_1output.ts:107-283 | "3" is the only KSampler, and it takes the request's seed |
| QwenEditManyLoras1OutputProperties.OneOutput | api-workflows/qwen_edit_manyloras_1output.ts:127-176 | "60" is the only SaveImage, and it saves the decode of sampler 3 |
| QwenEditManyLoras1OutputProperties.EncodersBypassLoras | api-workflows/qwen_edit_manyloras_1output.ts:197-220 | encoders "76" and "77" take their clip from loader "38", not from the LoRA node |
| QwenEditManyLoras1OutputProperties.PromptOnlyAt76 | api-workflows/qwen_edit_manyloras_1output.ts:197-208 | the prompt reaches only the `prompt` of encoder "76" |
| QwenEditManyLoras1OutputProperties.NegativePromptOnlyAt77 | api-workflows/qwen_edit_manyloras_1output.ts:209-220 | `negative_prompt` reaches only the `prompt` of encoder "77" |
| QwenEditRmbgProperties.PassesUseDistinctSeeds | api-workflows/qwen_edit_rmbg.ts:220-407 | sampler "3" uses `seed` and sampler "118" uses `seed + 1`, which differ |
| QwenEditRmbgProperties.PassesShareModelAndVae | api-workflows/qwen_edit_rmbg.ts:220-417 | both samplers use model chain "75" and both decodes use VAE "39" |
| QwenEditRmbgProperties.ThreeOutputs | api-workflows/qwen_edit_rmbg.ts:218-523 | the SaveImage nodes are exactly "60", "120" and "132" |
| QwenEditRmbgProperties.WhatEachOutputSaves | api-workflows/qwen_edit_rmbg.ts:238-486 | "60" saves first-pass decode 8, "120" second-pass decode 119, and "132" the RMBG output 123 |
| QwenEditRmbgProperties.PromptAtEncoders | api-workflows/qwen_edit_rmbg.ts:339-467 | encoders "111" and "128" receive the raw prompt verbatim |
| QwenEditRmbgProperties.PromptOnlyAtEncoders | api-workflows/qwen_edit_rmbg.ts:218-523 | no other node depends on the prompt |
| QwenEditRmbgProperties.RmbgSettings | api-workflows/qwen_edit_rmbg.ts:428-445 | RMBG "123" copies the model, sensitivity, process_res, mask_blur and mask_offset from the request, fixes `invert_output` and `refine_foreground` to false, and reads scale node 93 |
| RunpodHandler.AcceptedExactly | docker/runpod/src/rp_handler.py:48-81 | an input is accepted exactly when it is a dict (or JSON text of one) whose `endpoint` and `body` are present and not `None`; the data is then those two values; every returned pair holds data or an error, never both |
| RunpodHandler.ErrorOrder | docker/runpod/src/rp_handler.py:59-78 | each error message is given exactly when its check fails and every earlier check passed: no input, bad JSON, missing `endpoint`, missing `body` |
| RunpodHandler.RaisesExactly | docker/runpod/src/rp_handler.py:63-76 | the call raises exactly when the input is neither `None`, nor undecodable text, nor a dict or the text of one |
| RunpodHandler.TextCheckedAsDict | docker/runpod/src/rp_handler.py:63-68 | JSON text is checked exactly like the dict it decodes to |
| RunpodHandler.ValidateIdempotent | docker/runpod/src/rp_handler.py:80-81 | validating the validated data again accepts it unchanged |
| RunpodHandler.HandlerAnswersOrForwards | docker/runpod/src/rp_handler.py:105-118 | a job without `input` fails with `KeyError`; otherwise a failed validation is answered with `{"error": message}` and never forwarded, a passed one is forwarded with its `endpoint` and `body`, and the handler fails only where validation raised |
| RunpodHandler.InitFailed | docker/runpod/src/rp_handler.py:120-124 | the answer is exactly `{"error": "service failed to start"}` |
| RunpodHandler.AdjustConcurrency | docker/runpod/src/rp_handler.py:126-127 | the concurrency asked for is always 3 |
| FluxKontextDevBasicRequest.ParsedIsValid | api-workflows/flux_kontext_dev_basic.ts:12-63 | every request the schema accepts satisfies `Valid`: every declared `.min`/`.max` bound holds and every enum field is one of the configuration's names |
| FluxKontextDevBasicRequest.ParsedFields | api-workflows/flux_kontext_dev_basic.ts:12-63 | an accepted request holds, under every declared key, the value the caller sent, and the declared default (for `seed` the drawn value) where the caller left the key out |
| FluxKontextDevBasicRequest.ParseAccepts | api-workflows/flux_kontext_dev_basic.ts:12-63 | the schema accepts a request exactly when every declared key passes its check (`KeysPass`): JSON type, `.min`/`.max`, `.int()`, enum membership, present when it has no default |
| FluxKontextDevBasic.NodeShape | api-workflows/flux_kontext_dev_basic.ts:67-205 | each node links only to nodes of the prompt with a lower rank, and reads no undefined field |
| FluxKontextDevBasic.WellFormed | api-workflows/flux_kontext_dev_basic.ts:67-205 | the whole prompt is ranked by `Rank` (each link goes to a present node of lower rank), and no input of any node is undefined |
| FluxKontextDevBasic.ClosedAndAcyclic | api-workflows/flux_kontext_dev_basic.ts:67-205 | every `[id, slot]` link names a node of the same prompt, and no chain of links returns to its start |
| ImageQwenImageEdit3Loras3OutputsRequest.ParsedIsValid | api-workflows/image_qwen_image_edit_3loras_3outputs.ts:6-103 | every request the schema accepts satisfies `Valid`: every declared `.min`/`.max` bound holds and every enum field is one of the configuration's names |
| ImageQwenImageEdit3Loras3OutputsRequest.ParsedFields | api-workflows/image_qwen_image_edit_3loras_3outputs.ts:6-103 | an accepted request holds, under every declared key, the value the caller sent, and the declared default (for `seed` the drawn value) where the caller left the key out |
| ImageQwenImageEdit3Loras3OutputsRequest.ParseAccepts | api-workflows/image_qwen_image_edit_3loras_3outputs.ts:6-103 | the schema accepts a request exactly when every declared key passes its check (`KeysPass`): JSON type, `.min`/`.max`, `.int()`, enum membership, present when it has no default |
| ImageQwenImageEdit3Loras3Outputs.NodeShape | api-workflows/image_qwen_image_edit_3loras_3outputs.ts:107-362 | each node links only to nodes of the prompt with a lower rank, and reads no undefined field |
| ImageQwenImageEdit3Loras3Outputs.WellFormed | api-workflows/image_qwen_image_edit_3loras_3outputs.ts:107-362 | the whole prompt is ranked by `Rank` (each link goes to a present node of lower rank), and no input of any node is undefined |
| ImageQwenImageEdit3Loras3Outputs.ClosedAndAcyclic | api-workflows/image_qwen_image_edit_3loras_3outputs.ts:107-362 | every `[id, slot]` link names a node of the same prompt, and no chain of links returns to its start |
| KontextDevRequest.ParsedIsValid | api-workflows/kontext_dev.ts:6-116 | every request the schema accepts satisfies `Valid`: every declared `.min`/`.max` bound holds and every enum field is one of the configuration's names |
| KontextDevRequest.ParsedFields | api-workflows/kontext_dev.ts:6-116 | an accepted request holds, under every declared key, the value the caller sent, and the declared default (for `seed` the drawn value) where the caller left the key out |
| KontextDevRequest.ParseAccepts | api-workflows/kontext_dev.ts:6-116 | the schema accepts a request exactly when every declared key passes its check (`KeysPass`): JSON type, `.min`/`.max`, `.int()`, enum membership, present when it has no default |
| KontextDev.NodeShape | api-workflows/kontext_dev.ts:120-344 | each node links only to nodes of the prompt with a lower rank, and reads no undefined field |
| KontextDev.WellFormed | api-workflows/kontext_dev.ts:120-344 | the whole prompt is ranked by `Rank` (each link goes to a present node of lower rank), and no input of any node is undefined |
| KontextDev.ClosedAndAcyclic | api-workflows/kontext_dev.ts:120-344 | every `[id, slot]` link names a node of the same prompt, and no chain of links returns to its start |
| NunchakuKontextRequest.ParsedIsValid | api-workflows/nunchaku_kontext.ts:6-55 | every request the schema accepts satisfies `Valid`: every declared `.min`/`.max` bound holds and every enum field is one of the configuration's names |
| NunchakuKontextRequest.ParsedFields | api-workflows/nunchaku_kontext.ts:6-55 | an accepted request holds, under every declared key, the value the caller sent, and the declared default (for `seed` the drawn value) where the caller left the key out |
| NunchakuKontextRequest.ParseAccepts | api-workflows/nunchaku_kontext.ts:6-55 | the schema accepts a request exactly when every declared key passes its check (`KeysPass`): JSON type, `.min`/`.max`, `.int()`, enum membership, present when it has no default |
| NunchakuKontext.NodeShape | api-workflows/nunchaku_kontext.ts:59-176 | each node links only to nodes of the prompt with a lower rank, and reads no undefined field |
| NunchakuKontext.WellFormed | api-workflows/nunchaku_kontext.ts:59-176 | the whole prompt is ranked by `Rank` (each link goes to a present node of lower rank), and no input of any node is undefined |
| NunchakuKontext.ClosedAndAcyclic | api-workflows/nunchaku_kontext.ts:59-176 | every `[id, slot]` link names a node of the same prompt, and no chain of links returns to its start |
| NunchakuQwenEditConditionsRequest.ParsedIsValid | api-workflows/nunchaku_qwen_edit_conditions.ts:6-174 | every request the schema accepts satisfies `Valid`: every declared `.min`/`.max` bound holds and every enum field is one of the configuration's names |
| NunchakuQwenEditConditionsRequest.ParsedFields | api-workflows/nunchaku_qwen_edit_conditions.ts:6-174 | an accepted request holds, under every declared key, the value the caller sent, and the declared default (for `seed` the drawn value) where the caller left the key out |
| NunchakuQwenEditConditionsRequest.ParseAccepts | api-workflows/nunchaku_qwen_edit_conditions.ts:6-174 | the schema accepts a request exactly when every declared key passes its check (`KeysPass`): JSON type, `.min`/`.max`, `.int()`, enum membership, present when it has no default |
| NunchakuQwenEditConditions.NodeShape | api-workflows/nunchaku_qwen_edit_conditions.ts:178-560 | each node links only to nodes of the prompt with a lower rank, and reads no undefined field |
| NunchakuQwenEditConditions.WellFormed | api-workflows/nunchaku_qwen_edit_conditions.ts:178-560 | the whole prompt is ranked by `Rank` (each link goes to a present node of lower rank), and no input of any node is undefined |
| NunchakuQwenEditConditions.ClosedAndAcyclic | api-workflows/nunchaku_qwen_edit_conditions.ts:178-560 | every `[id, slot]` link names a node of the same prompt, and no chain of links returns to its start |
| NunchakuQwenEditSam2Request.ParsedIsValid | api-workflows/nunchaku_qwen_edit_sam2.ts:6-226 | every request the schema accepts satisfies `Valid`: every declared `.min`/`.max` bound holds and every enum field is one of the configuration's names |
| NunchakuQwenEditSam2Request.ParsedFields | api-workflows/nunchaku_qwen_edit_sam2.ts:6-226 | an accepted request holds, under every declared key, the value the caller sent, and the declared default (for `seed` the drawn value) where the caller left the key out |
| NunchakuQwenEditSam2Request.ParseAccepts | api-workflows/nunchaku_qwen_edit_sam2.ts:6-226 | the schema accepts a request exactly when every declared key passes its check (`KeysPass`): JSON type, `.min`/`.max`, `.int()`, enum membership, present when it has no default |
| NunchakuQwenEditSam2.NodeShape | api-workflows/nunchaku_qwen_edit_sam2.ts:230-715 | each node links only to nodes of the prompt with a lower rank, and every node except "331" (and "331" too when the six mask-enhancer fields are given) reads no undefined field |
| NunchakuQwenEditSam2.WellFormed | api-workflows/nunchaku_qwen_edit_sam2.ts:230-715 | the whole prompt is ranked by `Rank` (each link goes to a present node of lower rank), and has no undefined input once the six mask-enhancer fields are given |
| NunchakuQwenEditSam2.ClosedAndAcyclic | api-workflows/nunchaku_qwen_edit_sam2.ts:230-715 | every `[id, slot]` link names a node of the same prompt, and no chain of links returns to its start |
| QwenEdit3Loras2OutputsRequest.ParsedIsValid | api-workflows/qwen_edit_3loras_2outputs.ts:6-119 | every request the schema accepts satisfies `Valid`: every declared `.min`/`.max` bound holds and every enum field is one of the configuration's names |
| QwenEdit3Loras2OutputsRequest.ParsedFields | api-workflows/qwen_edit_3loras_2outputs.ts:6-119 | an accepted request holds, under every declared key, the value the caller sent, and the declared default (for `seed` the drawn value) where the caller left the key out |
| QwenEdit3Loras2OutputsRequest.ParseAccepts | api-workflows/qwen_edit_3loras_2outputs.ts:6-119 | the schema accepts a request exactly when every declared key passes its check (`KeysPass`): JSON type, `.min`/`.max`, `.int()`, enum membership, present when it has no default |
| QwenEdit3Loras2Outputs.NodeShape | api-workflows/qwen_edit_3loras_2outputs.ts:123-340 | each node links only to nodes of the prompt with a lower rank, and reads no undefined field |
| QwenEdit3Loras2Outputs.WellFormed | api-workflows/qwen_edit_3loras_2outputs.ts:123-340 | the whole prompt is ranked by `Rank` (each link goes to a present node of lower rank), and no input of any node is undefined |
| QwenEdit3Loras2Outputs.ClosedAndAcyclic | api-workflows/qwen_edit_3loras_2outputs.ts:123-340 | every `[id, slot]` link names a node of the same prompt, and no chain of links returns to its start |
| QwenEditConditionsRequest.ParsedIsValid | api-workflows/qwen_edit_conditions.ts:6-174 | every request the schema accepts satisfies `Valid`: every declared `.min`/`.max` bound holds and every enum field is one of the configuration's names |
| QwenEditConditionsRequest.ParsedFields | api-workflows/qwen_edit_conditions.ts:6-174 | an accepted request holds, under every declared key, the value the caller sent, and the declared default (for `seed` the drawn value) where the caller left the key out |
| QwenEditConditionsRequest.ParseAccepts | api-workflows/qwen_edit_conditions.ts:6-174 | the schema accepts a request exactly when every declared key passes its check (`KeysPass`): JSON type, `.min`/`.max`, `.int()`, enum membership, present when it has no default |
| QwenEditConditions.NodeShape | api-workflows/qwen_edit_conditions.ts:178-768 | each node links only to nodes of the prompt with a lower rank, and reads no undefined field |
| QwenEditConditions.WellFormed | api-workflows/qwen_edit_conditions.ts:178-768 | the whole prompt is ranked by `Rank` (each link goes to a present node of lower rank), and no input of any node is undefined |
| QwenEditConditions.ClosedAndAcyclic | api-workflows/qwen_edit_conditions.ts:178-768 | every `[id, slot]` link names a node of the same prompt, and no chain of links returns to its start |
| QwenEditManyLoras1OutputRequest.ParsedIsValid | api-workflows/qwen_edit_manyloras_1output.ts:6-103 | every request the schema accepts satisfies `Valid`: every declared `.min`/`.max` bound holds and every enum field is one of the configuration's names |
| QwenEditManyLoras1OutputRequest.ParsedFields | api-workflows/qwen_edit_manyloras_1output.ts:6-103 | an accepted request holds, under every declared key, the value the caller sent, and the declared default (for `seed` the drawn value) where the caller left the key out |
| QwenEditManyLoras1OutputRequest.ParseAccepts | api-workflows/qwen_edit_manyloras_1output.ts:6-103 | the schema accepts a request exactly when every declared key passes its check (`KeysPass`): JSON type, `.min`/`.max`, `.int()`, enum membership, present when it has no default |
| QwenEditManyLoras1Output.NodeShape | api-workflows/qwen_edit_manyloras_1output.ts:107-283 | each node links only to nodes of the prompt with a lower rank, and reads no undefined field |
| QwenEditManyLoras1Output.WellFormed | api-workflows/qwen_edit_manyloras_1output.ts:107-283 | the whole prompt is ranked by `Rank` (each link goes to a present node of lower rank), and no input of any node is undefined |
| QwenEditManyLoras1Output.ClosedAndAcyclic | api-workflows/qwen_edit_manyloras_1output.ts:107-283 | every `[id, slot]` link names a node of the same prompt, and no chain of links returns to its start |
| QwenEditRmbgRequest.ParsedIsValid | api-workflows/qwen_edit_rmbg.ts:6-214 | every request the schema accepts satisfies `Valid`: every declared `.min`/`.max` bound holds and every enum field is one of the configuration's names |
| QwenEditRmbgRequest.ParsedFields | api-workflows/qwen_edit_rmbg.ts:6-214 | an accepted request holds, under every declared key, the value the caller sent, and the declared default (for `seed` the drawn value) where the caller left the key out |
| QwenEditRmbgRequest.ParseAccepts | api-workflows/qwen_edit_rmbg.ts:6-214 | the schema accepts a request exactly when every declared key passes its check (`KeysPass`): JSON type, `.min`/`.max`, `.int()`, enum membership, present when it has no default |
| QwenEditRmbg.NodeShape | api-workflows/qwen_edit_rmbg.ts:218-523 | each node links only to nodes of the prompt with a lower rank, and reads no undefined field |
| QwenEditRmbg.WellFormed | api-workflows/qwen_edit_rmbg.ts:218-523 | the whole prompt is ranked by `Rank` (each link goes to a present node of lower rank), and no input of any node is undefined |
| QwenEditRmbg.ClosedAndAcyclic | api-workflows/qwen_edit_rmbg.ts:218-523 | every `[id, slot]` link names a node of the same prompt, and no chain of links returns to its start |

The per-node functions `<Builder>.NodeK` model the node literal under key "K" of each builder. Their own contracts (links inside the prompt, lower rank, no undefined input) are gathered by `NodeShape` and `WellFormed`, which have rows above. `<Builder>.GenerateAt` only unfolds `Generate` at one key for the other lemmas, and `ComfyGraph.RealOrUndefined` and `ComfyGraph.BoolOrUndefined` only spell out how `undefined` is written; they are helpers. `<Builder>Request.AcceptedKeysPass` and `PassingKeysAccepted` are the two halves of `ParseAccepts`. `Parse`, `ParseWith`, `ValidateInput` and `Handler` are the modelled operations; the lemmas in their rows state what they compute.

## Left out

- Configuration enums. `config.samplers`, `config.schedulers` and the model lists are the sets of `Zod.Config`. The service configuration that fills them is not part of this model; each schema only checks membership.
- FluxKontextDevBasicRequest.ParsedIsValid: `checkpoint` is read as a string with its default and not checked against `(config.models as any).flux_unets?.enum`. That list comes from a configuration file that is not part of this model, and `?.` can even make it undefined.
- Random seed. `Math.random()` in the `seed` default becomes the parameter `drawnSeed`, so any drawn value is covered.
- Numbers. JavaScript numbers are doubles; the model uses exact reals and unbounded integers. `.int()` is "has no fractional part". Rounding, infinities and NaN are not modelled.
- The `?? 0` in `(input.seed ?? 0) + 1` (qwen_edit_rmbg.ts:392) never applies, because the parsed seed always has a value. The model writes `seed + 1`.
- Documentation strings. zod `.describe(...)` texts and each workflow's `summary` and `description` carry no behaviour and are not modelled. The one description that contradicts its graph (qwen_edit_3loras_2outputs.ts:346) is covered by `QwenEdit3Loras2OutputsProperties.TwoOutputs`.
- `_meta` titles of nodes: display-only, dropped.
- What the nodes do. The model builds the prompt; it does not run ComfyUI. Node semantics, and which nodes ComfyUI actually executes, are out of scope.
- Undefined fields in the output. An input that is `undefined` is kept as `Undefined`. `JSON.stringify` would drop the key when the prompt is sent; that encoding step is not modelled.
- Node "331" of nunchaku_qwen_edit_sam2.ts is not linked from any other node. This is read from the source and not proved: a proof over all 54 nodes was too costly.
- One-of-a-class facts appear only where listed (the SaveImage and LoadImage lemmas). Other classes' counts are not stated.
- `wait_for_service`, `run_inference`, the aiohttp session, the retry loop, the timeout and the `__main__` start-up of rp_handler.py are I/O: the model stops at `Forward(endpoint, body)`, where `run_inference` would be called.
- `json.loads` is the parameter `loads`; a decoding failure is `None`. Python's JSON grammar is not modelled.
- Exceptions in rp_handler.py: `job["input"]` raising `KeyError` and a non-dict result raising `AttributeError` are modelled as `Fail` with the exception's name; the worker framework's reaction to an exception is not.

## Findings

| source | as written | input that shows it | evidently intended | confidence | as-written member | corrected member |
|---|---|---|---|---|---|---|
| api-workflows/nunchaku_qwen_edit_sam2.ts:673-684 | node "331" reads `mask_enhancer_sensitivity`, `_blur`, `_offset`, `_smooth`, `_fill_holes` and `_invert_output` from the request, but `RequestSchema` (lines 6-226) declares none of them; zod strips unknown keys, so all six are `undefined` for every request | `{"image": "photo.png"}` with a configuration that contains the default sampler and scheduler: parsing succeeds, and node "331" has `sensitivity: undefined` | the schema declares the six fields, so that node "331" gets real settings | not executed; the node is not linked from any other node, so ComfyUI may never execute it | NunchakuQwenEditSam2Enhancer.ParsedPromptIsNotDefined | NunchakuQwenEditSam2Enhancer.CorrectedPromptIsDefined |
