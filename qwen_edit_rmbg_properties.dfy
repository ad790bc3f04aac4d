/**
 * What the prompt of api-workflows/qwen_edit_rmbg.ts promises: two sampler passes with distinct
 * seeds over one model, three outputs, and the background-removal node wired to the request.
 * `NodeAt(input, k)` is node `k` of `Generate(input)` (`QwenEditRmbg.GenerateAt`).
 */
module QwenEditRmbgProperties {
  import opened ComfyGraph
  import opened QwenEditRmbgRequest
  import opened QwenEditRmbg

  /** The first pass "3" samples with the request's seed and the second pass "118" with the next one. */
  lemma PassesUseDistinctSeeds(input: Request)
    ensures Node3(input).inputs["seed"] == N(input.seed)
    ensures Node118(input).inputs["seed"] == N(input.seed + 1)
    ensures Node3(input).inputs["seed"] != Node118(input).inputs["seed"]
  {
  }

  /** Both passes sample the same model chain "75" and both decodes use the same VAE "39". */
  lemma PassesShareModelAndVae(input: Request)
    ensures Node3(input).inputs["model"] == Ref(75, 0) && Node118(input).inputs["model"] == Ref(75, 0)
    ensures Node8(input).inputs["vae"] == Ref(39, 0) && Node119(input).inputs["vae"] == Ref(39, 0)
  {
  }

  /** There are exactly three outputs: SaveImage nodes "60", "120" and "132". */
  lemma ThreeOutputs(input: Request)
    ensures NodesOfClass(Generate(input), "SaveImage") == {60, 120, 132}
  {
  }

  /** "60" saves the first-pass decode "8", "120" the second-pass decode "119", "132" the RMBG cut-out "123". */
  lemma WhatEachOutputSaves(input: Request)
    ensures Node60(input).inputs["images"] == Ref(8, 0) && Node8(input).inputs["samples"] == Ref(3, 0)
    ensures Node120(input).inputs["images"] == Ref(119, 0) && Node119(input).inputs["samples"] == Ref(118, 0)
    ensures Node132(input).inputs["images"] == Ref(123, 0)
  {
  }

  /** The prompt is the text of both encoders, "111" and "128", verbatim. */
  lemma PromptAtEncoders(input: Request)
    ensures Node111(input).inputs["prompt"] == S(input.prompt)
    ensures Node128(input).inputs["prompt"] == S(input.prompt)
  {
  }

  /** No node other than the two encoders depends on the prompt. */
  lemma PromptOnlyAtEncoders(input: Request, prompt: string)
    ensures forall k | k != 111 && k != 128 :: NodeAt(input.(prompt := prompt), k) == NodeAt(input, k)
  {
    var other := input.(prompt := prompt);
    assert other.image == input.image;
  }

  /**
   * The RMBG node "123" takes its model and its four settings from the request, never inverts
   * its mask nor refines the foreground, and works on the scaled image "93".
   */
  lemma RmbgSettings(input: Request)
    ensures var n := Node123(input);
      && n.classType == "RMBG"
      && n.inputs["model"] == S(input.rmbg_model)
      && n.inputs["sensitivity"] == R(input.rmbg_sensitivity)
      && n.inputs["process_res"] == N(input.rmbg_process_res)
      && n.inputs["mask_blur"] == N(input.rmbg_mask_blur)
      && n.inputs["mask_offset"] == N(input.rmbg_mask_offset)
      && n.inputs["invert_output"] == B(false)
      && n.inputs["refine_foreground"] == B(false)
      && n.inputs["image"] == Ref(93, 0)
  {
  }
}
