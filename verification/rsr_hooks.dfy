/** The RSR hooks (src/rsr/hooks.rs): the triggers an RSR validator can
    fire, the result a hook reports, and the JSON-RPC style entry point
    that turns a request into a trigger and wraps the hook's result.

    Running a hook loads pipelines, runs tools and reads files; here it is
    given as the function `execute` from a trigger to its result. */
module Hooks {
  import opened Wrappers

  /** A JSON value. Objects are maps: the order of their fields does not
      matter to the requests and responses modelled here. */
  datatype Json =
    | JNull
    | JBool(b: bool)
    | JNumber(n: int)
    | JString(s: string)
    | JArray(items: seq<Json>)
    | JObject(fields: map<string, Json>)

  datatype Trigger =
    | ValidatePipeline(path: string)
    | RunPipeline(runPath: string, stages: seq<string>, noCache: bool)
    | CheckCompliance(requirements: seq<string>)
    | InitFromTemplate(template: string, targetDir: string)
    | AnalyzeConfig(file: string)

  datatype HookResult = HookResult(success: bool, message: string, data: Option<Json>, suggestions: seq<string>)

  // ---------------------------------------------------------------------
  // Result builders

  /** A succeeding result with no data and no suggestions. */
  function Success(message: string): (r: HookResult)
    ensures r.success && r.message == message && r.data.None? && r.suggestions == []
  {
    HookResult(true, message, None, [])
  }

  /** A failing result with no data and no suggestions. */
  function Failure(message: string): (r: HookResult)
    ensures !r.success && r.message == message && r.data.None? && r.suggestions == []
  {
    HookResult(false, message, None, [])
  }

  /** `with_data` sets the data and changes nothing else. */
  function WithData(h: HookResult, data: Json): (r: HookResult)
    ensures r.data == Some(data)
    ensures r.success == h.success && r.message == h.message && r.suggestions == h.suggestions
  {
    h.(data := Some(data))
  }

  /** `with_suggestions` replaces the suggestions and changes nothing else. */
  function WithSuggestions(h: HookResult, suggestions: seq<string>): (r: HookResult)
    ensures r.suggestions == suggestions
    ensures r.success == h.success && r.message == h.message && r.data == h.data
  {
    h.(suggestions := suggestions)
  }

  /** The two builders touch different fields, so their order does not
      matter. */
  lemma BuildersCommute(h: HookResult, data: Json, suggestions: seq<string>)
    ensures WithSuggestions(WithData(h, data), suggestions) == WithData(WithSuggestions(h, suggestions), data)
    ensures WithSuggestions(WithData(h, data), suggestions) == HookResult(h.success, h.message, Some(data), suggestions)
  {
  }

  /** `init_from_template`, the one hook that touches nothing: it describes
      what it would do and suggests the command that does it. */
  function InitFromTemplateResult(template: string, targetDir: string): (r: HookResult)
    ensures r.success && r.data.None?
    ensures r.message == "Would initialize '" + template + "' template in " + targetDir
    ensures r.suggestions == ["Run: cd " + targetDir + " && conflow init --template " + template]
  {
    WithSuggestions(
      Success("Would initialize '" + template + "' template in " + targetDir),
      ["Run: cd " + targetDir + " && conflow init --template " + template])
  }

  // ---------------------------------------------------------------------
  // Requests and responses

  datatype RpcRequest = RpcRequest(jsonrpc: string, methodName: string, params: Json, id: Json)

  datatype RpcError = RpcError(code: int, message: string, data: Option<Json>)

  datatype RpcResponse = RpcResponse(jsonrpc: string, result: Option<Json>, error: Option<RpcError>, id: Json)

  const JsonRpcVersion := "2.0"
  const MethodNotFound := -32601

  const DefaultPipeline := ".conflow.yaml"
  const DefaultConfig := "config.yaml"

  /** A response carrying a result and no error. */
  function RespondSuccess(id: Json, result: Json): (r: RpcResponse)
    ensures r.jsonrpc == JsonRpcVersion && r.result == Some(result) && r.error.None? && r.id == id
  {
    RpcResponse(JsonRpcVersion, Some(result), None, id)
  }

  /** A response carrying an error and no result. */
  function RespondError(id: Json, code: int, message: string): (r: RpcResponse)
    ensures r.jsonrpc == JsonRpcVersion && r.result.None? && r.id == id
    ensures r.error == Some(RpcError(code, message, None))
  {
    RpcResponse(JsonRpcVersion, None, Some(RpcError(code, message, None)), id)
  }

  /** `Value::get` with a key: a field of an object; nothing otherwise. */
  function Field(v: Json, key: string): Option<Json> {
    match v
    case JObject(fields) => if key in fields then Some(fields[key]) else None
    case _ => None
  }

  /** A string parameter, or `default` when it is absent or not a string. */
  function StringParam(params: Json, key: string, default: string): (r: string)
    ensures (Field(params, key).Some? && Field(params, key).value.JString?) ==> r == Field(params, key).value.s
    ensures !(Field(params, key).Some? && Field(params, key).value.JString?) ==> r == default
  {
    match Field(params, key)
    case Some(JString(s)) => s
    case _ => default
  }

  /** A boolean parameter, or `default` when it is absent or not a boolean. */
  function BoolParam(params: Json, key: string, default: bool): (r: bool)
    ensures (Field(params, key).Some? && Field(params, key).value.JBool?) ==> r == Field(params, key).value.b
    ensures !(Field(params, key).Some? && Field(params, key).value.JBool?) ==> r == default
  {
    match Field(params, key)
    case Some(JBool(b)) => b
    case _ => default
  }

  /** The strings of an array, in order; other entries are dropped. */
  function StringItems(items: seq<Json>): (r: seq<string>)
    ensures |r| <= |items|
    ensures forall s :: s in r ==> JString(s) in items
  {
    if items == [] then []
    else (match items[0] case JString(s) => [s] case _ => []) + StringItems(items[1..])
  }

  /** A list-of-strings parameter: the strings of an array, and empty when
      the parameter is absent or not an array. */
  function StringsParam(params: Json, key: string): (r: seq<string>)
    ensures !(Field(params, key).Some? && Field(params, key).value.JArray?) ==> r == []
    ensures (Field(params, key).Some? && Field(params, key).value.JArray?) ==> r == StringItems(Field(params, key).value.items)
  {
    match Field(params, key)
    case Some(JArray(items)) => StringItems(items)
    case _ => []
  }

  /** Dropping non-strings distributes over concatenation. */
  lemma {:induction false} StringItemsAppend(a: seq<Json>, b: seq<Json>)
    ensures StringItems(a + b) == StringItems(a) + StringItems(b)
    decreases |a|
  {
    if a == [] {
      assert a + b == b;
    } else {
      assert (a + b)[1..] == a[1..] + b;
      StringItemsAppend(a[1..], b);
    }
  }

  /** A list of strings as a JSON array's items. */
  function JStrings(strings: seq<string>): (r: seq<Json>)
    ensures |r| == |strings|
  {
    if strings == [] then [] else [JString(strings[0])] + JStrings(strings[1..])
  }

  /** Reading back the strings of an array of strings gives them all, in
      order. */
  lemma {:induction false} StringItemsAllStrings(strings: seq<string>)
    ensures StringItems(JStrings(strings)) == strings
    decreases |strings|
  {
    if strings != [] {
      assert JStrings(strings)[1..] == JStrings(strings[1..]);
      StringItemsAllStrings(strings[1..]);
    }
  }

  /** An array without strings gives nothing. */
  lemma {:induction false} StringItemsNoStrings(items: seq<Json>)
    requires forall j :: 0 <= j < |items| ==> !items[j].JString?
    ensures StringItems(items) == []
    decreases |items|
  {
    if items != [] {
      StringItemsNoStrings(items[1..]);
    }
  }

  /** The methods the interface offers. */
  predicate Offered(methodName: string) {
    methodName == "conflow.validate" || methodName == "conflow.run" || methodName == "conflow.compliance" || methodName == "conflow.analyze"
  }

  /** The trigger a method names, read from its parameters with their
      defaults; `None` for a method the interface does not offer. */
  function TriggerFor(methodName: string, params: Json): (t: Option<Trigger>)
    ensures t.None? <==> !Offered(methodName)
    ensures t.Some? ==> !t.value.InitFromTemplate?
  {
    if methodName == "conflow.validate" then
      Some(ValidatePipeline(StringParam(params, "path", DefaultPipeline)))
    else if methodName == "conflow.run" then
      Some(RunPipeline(StringParam(params, "path", DefaultPipeline), StringsParam(params, "stages"), BoolParam(params, "no_cache", false)))
    else if methodName == "conflow.compliance" then
      Some(CheckCompliance(StringsParam(params, "requirements")))
    else if methodName == "conflow.analyze" then
      Some(AnalyzeConfig(StringParam(params, "file", DefaultConfig)))
    else None
  }

  /** The JSON object a hook's result is reported as. */
  function ResultJson(h: HookResult): Json {
    JObject(map[
      "success" := JBool(h.success),
      "message" := JString(h.message),
      "data" := (match h.data case Some(d) => d case None => JNull),
      "suggestions" := JArray(JStrings(h.suggestions))])
  }

  /** `handle_request`: an unknown method is answered with error -32601 and
      runs nothing; any other runs its hook and reports the hook's result
      as a successful response, whether or not the hook succeeded. */
  function HandleRequest(execute: Trigger -> HookResult, request: RpcRequest): (r: RpcResponse)
    ensures r.jsonrpc == JsonRpcVersion && r.id == request.id
    ensures r.error.Some? <==> TriggerFor(request.methodName, request.params).None?
    ensures r.error.Some? ==> r.result.None? && r.error.value == RpcError(MethodNotFound, "Method not found: " + request.methodName, None)
    ensures r.error.None? ==> r.result == Some(ResultJson(execute(TriggerFor(request.methodName, request.params).value)))
  {
    match TriggerFor(request.methodName, request.params)
    case None => RespondError(request.id, MethodNotFound, "Method not found: " + request.methodName)
    case Some(trigger) => RespondSuccess(request.id, ResultJson(execute(trigger)))
  }

  // ---------------------------------------------------------------------
  // Properties

  /** An unknown method is answered without running any hook: the response
      is the same whatever the hooks would do. */
  lemma UnknownMethodRunsNothing(e1: Trigger -> HookResult, e2: Trigger -> HookResult, request: RpcRequest)
    requires !Offered(request.methodName)
    ensures HandleRequest(e1, request) == HandleRequest(e2, request)
    ensures HandleRequest(e1, request).error.Some? && HandleRequest(e1, request).error.value.code == -32601
  {
  }

  /** The reported object holds the hook's own success flag, message,
      data and suggestions. */
  lemma ResultJsonFields(h: HookResult)
    ensures ResultJson(h).JObject?
    ensures Field(ResultJson(h), "success") == Some(JBool(h.success))
    ensures Field(ResultJson(h), "message") == Some(JString(h.message))
    ensures Field(ResultJson(h), "data") == Some(if h.data.Some? then h.data.value else JNull)
    ensures Field(ResultJson(h), "suggestions").Some? && Field(ResultJson(h), "suggestions").value.JArray?
    ensures StringItems(Field(ResultJson(h), "suggestions").value.items) == h.suggestions
  {
    StringItemsAllStrings(h.suggestions);
    assert "suggestions" != "data" && "suggestions" != "message" && "suggestions" != "success" by {
      assert |"suggestions"| == 11 && |"success"| == 7;
    }
  }

  /** A known method's response carries the hook's own success flag: a
      failing hook is still a successful response. */
  lemma ReportsHookOutcome(execute: Trigger -> HookResult, request: RpcRequest)
    requires Offered(request.methodName)
    ensures var r := HandleRequest(execute, request);
      var h := execute(TriggerFor(request.methodName, request.params).value);
      && r.error.None? && r.result.Some?
      && Field(r.result.value, "success") == Some(JBool(h.success))
      && Field(r.result.value, "message") == Some(JString(h.message))
  {
    ResultJsonFields(execute(TriggerFor(request.methodName, request.params).value));
  }

  /** Parameters left out take their defaults: the pipeline file, no
      stages, caching on, no requirement filter and the default config. */
  lemma MissingParamsDefault(params: Json)
    requires params.JNull? || params == JObject(map[])
    ensures TriggerFor("conflow.validate", params) == Some(ValidatePipeline(".conflow.yaml"))
    ensures TriggerFor("conflow.run", params) == Some(RunPipeline(".conflow.yaml", [], false))
    ensures TriggerFor("conflow.compliance", params) == Some(CheckCompliance([]))
    ensures TriggerFor("conflow.analyze", params) == Some(AnalyzeConfig("config.yaml"))
  {
  }

  /** Array entries that are not strings are dropped, the rest keep their
      order. */
  lemma NonStringsDropped(strings: seq<string>, noise: seq<Json>)
    requires forall j :: 0 <= j < |noise| ==> !noise[j].JString?
    ensures StringItems(JStrings(strings) + noise) == strings
  {
    StringItemsAppend(JStrings(strings), noise);
    StringItemsAllStrings(strings);
    StringItemsNoStrings(noise);
  }

  /** So a run request keeps exactly its string stages, in order. */
  lemma NonStringStagesDropped(stages: seq<string>, noise: seq<Json>)
    requires forall j :: 0 <= j < |noise| ==> !noise[j].JString?
    ensures TriggerFor("conflow.run", JObject(map["stages" := JArray(JStrings(stages) + noise)]))
         == Some(RunPipeline(".conflow.yaml", stages, false))
  {
    NonStringsDropped(stages, noise);
    var params := JObject(map["stages" := JArray(JStrings(stages) + noise)]);
    assert Field(params, "path").None? && Field(params, "no_cache").None? by {
      assert |"path"| != |"stages"| && |"no_cache"| != |"stages"|;
    }
  }
}
