/**
 * The request checks of the RunPod serverless worker, docker/runpod/src/rp_handler.py: what
 * `validate_input` makes of a job's `input`, what `handler` answers before it forwards a job,
 * and the two fixed callbacks `init_failed` and `adjust_concurrency`.
 *
 * A job input is the Python value RunPod decoded from the job's JSON: `None` is `JNull`, a dict
 * is a `JObject`. `json.loads` is the parameter `loads`, which yields `None` where Python raises
 * `json.JSONDecodeError`.
 */
module RunpodHandler {
  import opened Wrappers
  import opened JsonValue

  /** What a call does: return a value, or raise the named Python exception. */
  datatype Outcome<T> = Returns(value: T) | Raises(exception: string)

  /** The pair `(validated_data, error_message)`; `None` stands for Python's `None`. */
  datatype Validation = Validation(data: Option<map<string, Json>>, error: Option<string>)

  const NoInput := "Please provide input"
  const BadJson := "Invalid JSON format in input"
  const NoEndpoint := "Missing 'endpoint' parameter"
  const NoBody := "Missing 'body' parameter"

  /** `d.get(key)` on a dict: the value, or `None` when the key is absent. */
  function Get(d: map<string, Json>, key: string): Json {
    if key in d then d[key] else JNull
  }

  /** `validate_input(job_input)` (lines 48-81). */
  function ValidateInput(jobInput: Json, loads: string -> Option<Json>): Outcome<Validation> {
    if jobInput.JNull? then
      Returns(Validation(None, Some(NoInput)))
    else if jobInput.JStr? && loads(jobInput.s).None? then
      Returns(Validation(None, Some(BadJson)))
    else
      var decoded := if jobInput.JStr? then loads(jobInput.s).value else jobInput;
      // `.get` exists on dicts only; on any other value (including `None` from "null") it raises.
      if !decoded.JObject? then
        Raises("AttributeError")
      else if Get(decoded.fields, "endpoint").JNull? then
        Returns(Validation(None, Some(NoEndpoint)))
      else if Get(decoded.fields, "body").JNull? then
        Returns(Validation(None, Some(NoBody)))
      else
        Returns(Validation(Some(map["endpoint" := decoded.fields["endpoint"], "body" := decoded.fields["body"]]), None))
  }

  /** A call returns a well-formed pair: either data and no error, or an error and no data, never both. */
  predicate OneOfDataOrError(v: Validation) {
    v.data.Some? != v.error.Some?
  }

  /** The decoded dict a job input stands for, if it stands for one. */
  function AsDict(jobInput: Json, loads: string -> Option<Json>): Option<map<string, Json>> {
    match jobInput
    case JObject(fields) => Some(fields)
    case JStr(s) => if loads(s).Some? && loads(s).value.JObject? then Some(loads(s).value.fields) else None
    case _ => None
  }

  /**
   * The input is accepted exactly when it is a dict, or a JSON text of one, whose `endpoint`
   * and `body` are both present and not `None`; the data is then those two values and no more,
   * and every returned pair holds either data or an error.
   */
  lemma AcceptedExactly(jobInput: Json, loads: string -> Option<Json>)
    ensures var o := ValidateInput(jobInput, loads);
      var d := AsDict(jobInput, loads);
      && (o.Returns? ==> OneOfDataOrError(o.value))
      && (o.Returns? && o.value.data.Some? <==>
            d.Some? && !Get(d.value, "endpoint").JNull? && !Get(d.value, "body").JNull?)
      && (o.Returns? && o.value.data.Some? ==>
            o.value.data.value == map["endpoint" := d.value["endpoint"], "body" := d.value["body"]])
  {
  }

  /**
   * The checks come in order: no input, then undecodable text, then a missing `endpoint`, then a
   * missing `body`; each message is reported only when every earlier check passed.
   */
  lemma ErrorOrder(jobInput: Json, loads: string -> Option<Json>)
    ensures var o := ValidateInput(jobInput, loads);
      && (o == Returns(Validation(None, Some(NoInput))) <==> jobInput.JNull?)
      && (o == Returns(Validation(None, Some(BadJson))) <==> jobInput.JStr? && loads(jobInput.s).None?)
      && (o == Returns(Validation(None, Some(NoEndpoint))) <==>
            AsDict(jobInput, loads).Some? && Get(AsDict(jobInput, loads).value, "endpoint").JNull?)
      && (o == Returns(Validation(None, Some(NoBody))) <==>
            AsDict(jobInput, loads).Some? && !Get(AsDict(jobInput, loads).value, "endpoint").JNull?
            && Get(AsDict(jobInput, loads).value, "body").JNull?)
  {
  }

  /** `.get` raises exactly when the input is neither `None` nor a dict nor a JSON text that decodes to one. */
  lemma RaisesExactly(jobInput: Json, loads: string -> Option<Json>)
    ensures ValidateInput(jobInput, loads).Raises? <==>
      && !jobInput.JNull?
      && !(jobInput.JStr? && loads(jobInput.s).None?)
      && AsDict(jobInput, loads).None?
  {
  }

  /** A JSON text is checked exactly like the dict it decodes to. */
  lemma TextCheckedAsDict(s: string, loads: string -> Option<Json>)
    requires loads(s).Some? && loads(s).value.JObject?
    ensures ValidateInput(JStr(s), loads) == ValidateInput(loads(s).value, loads)
  {
  }

  /** Validating the validated data again accepts it unchanged. */
  lemma ValidateIdempotent(jobInput: Json, loads: string -> Option<Json>)
    requires ValidateInput(jobInput, loads).Returns?
    requires ValidateInput(jobInput, loads).value.data.Some?
    ensures var data := ValidateInput(jobInput, loads).value.data.value;
      ValidateInput(JObject(data), loads) == Returns(Validation(Some(data), None))
  {
    var o := ValidateInput(jobInput, loads);
    var data := o.value.data.value;
    assert Get(data, "endpoint") == data["endpoint"];
    assert Get(data, "body") == data["body"];
  }

  /** What `handler` does with a job: answer it directly, forward it to the local API, or raise. */
  datatype Step =
    | Respond(response: map<string, Json>)
    | Forward(endpoint: Json, body: Json)
    | Fail(exception: string)

  /**
   * `handler(job)` (lines 105-118) up to the call of `run_inference`, whose HTTP exchange is not
   * part of this model: `Forward` stands for that call with its two arguments.
   */
  function Handler(job: map<string, Json>, loads: string -> Option<Json>): Step {
    if "input" !in job then
      Fail("KeyError")
    else
      match ValidateInput(job["input"], loads)
      case Raises(e) => Fail(e)
      case Returns(Validation(data, error)) =>
        // `if error_message:` tests truthiness: `None` and the empty string are false.
        if error.Some? && error.value != "" then
          Respond(map["error" := JStr(error.value)])
        else if data.Some? && "endpoint" in data.value && "body" in data.value then
          Forward(data.value["endpoint"], data.value["body"])
        else
          Fail("TypeError")
  }

  /**
   * A job whose input fails validation is answered with `{"error": message}` and is never
   * forwarded; a job whose input passes is forwarded with the validated `endpoint` and `body`.
   * The handler fails only where `validate_input` raised, or with `KeyError` on a job that has
   * no `input` at all.
   */
  lemma HandlerAnswersOrForwards(job: map<string, Json>, loads: string -> Option<Json>)
    ensures "input" !in job ==> Handler(job, loads) == Fail("KeyError")
    ensures "input" in job ==>
      var o := ValidateInput(job["input"], loads);
      && (o.Returns? && o.value.error.Some? ==> Handler(job, loads) == Respond(map["error" := JStr(o.value.error.value)]))
      && (o.Returns? && o.value.data.Some? ==>
            Handler(job, loads) == Forward(o.value.data.value["endpoint"], o.value.data.value["body"]))
      && (Handler(job, loads).Forward? <==> o.Returns? && o.value.data.Some?)
      && (Handler(job, loads).Fail? <==> o.Raises?)
  {
  }

  /** `init_failed(job)` (lines 120-124): the worker's only answer when the local API never came up. */
  function InitFailed(job: Json): (r: map<string, Json>)
    ensures r.Keys == {"error"} && r["error"] == JStr("service failed to start")
  {
    map["error" := JStr("service failed to start")]
  }

  /** `adjust_concurrency(current_concurrency)` (lines 126-127): the worker always asks for three jobs at once. */
  function AdjustConcurrency(current: int): (r: int)
    ensures r == 3
  {
    3
  }
}
