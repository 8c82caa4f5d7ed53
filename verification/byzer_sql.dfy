/** The Byzer SQL UDF entry points: `chat` turns each input row into one backend
    call and one result row; `deploy` strips its bookkeeping keys and applies
    defaults before handing the rest to the deployment. Rows and parameters are
    taken as already decoded from JSON. */
module ByzerSql {
  import opened PyValues
  import opened AgentCore

  /** The keys `chat` removes from a row before the rest becomes `llm_config`. */
  const ReservedKeys: seq<string> := ["query", "instruction", "history", "user_role", "system_msg", "assistant_role"]

  function UserMessage(prompt: Value): (m: Value)
    ensures m.Dict? && m.entries.Keys == {"role", "content"} && m.entries["content"] == prompt
  {
    Dict(map["role" := Str("user"), "content" := prompt])
  }

  function AssistantMessage(output: string): (m: Value)
    ensures m.Dict? && m.entries.Keys == {"role", "content"} && m.entries["content"] == Str(output)
  {
    Dict(map["role" := Str("assistant"), "content" := Str(output)])
  }

  /** The prompt of a row: `value.get("query", value.get("instruction", ""))`. */
  function Prompt(row: map<string, Value>): (v: Value)
    ensures "query" in row ==> v == row["query"]
    ensures "query" !in row && "instruction" in row ==> v == row["instruction"]
    ensures "query" !in row && "instruction" !in row ==> v == Str("")
  {
    Get(row, "query", Get(row, "instruction", Str("")))
  }

  /** The decoded `history` of a row, an empty list when the row has none. */
  function History(row: map<string, Value>): (h: Value)
    ensures h == (if "history" in row then row["history"] else List([]))
  {
    Get(row, "history", List([]))
  }

  /** The row without any reserved key. */
  function Config(row: map<string, Value>): (c: map<string, Value>)
    ensures forall k :: k in c <==> k in row && k !in ReservedKeys
    ensures forall k :: k in c ==> c[k] == row[k]
  {
    map k | k in row && k !in ReservedKeys :: row[k]
  }

  /** The keyword arguments of `llm.chat_oai(conversations=..., llm_config={**value})`
      for one row: the history followed by exactly one user message carrying the
      prompt, and the row without its reserved keys. A history that is not a list
      raises TypeError at the concatenation. */
  function RowRequest(row: map<string, Value>): (r: Result<map<string, Value>>)
    ensures r.Ok? <==> History(row).List?
    ensures r.Err? ==> r.error == TypeError
    ensures r.Ok? ==>
      && r.value.Keys == {"conversations", "llm_config"}
      && r.value["conversations"] == List(History(row).items + [UserMessage(Prompt(row))])
      && r.value["llm_config"] == Dict(Config(row))
  {
    var history := History(row);
    if !history.List? then Err(TypeError)
    else Ok(map["conversations" := List(history.items + [UserMessage(Prompt(row))]),
                "llm_config" := Dict(Config(row))])
  }

  /** The response one row produces, before `json.dumps`: the first backend
      response as a dictionary, with `history` set to the row's history, the user
      message and the assistant's reply. A row that is not a dictionary has no
      `get` (AttributeError); an empty backend answer raises IndexError. */
  function ChatRow(backend: ChatBackend, row: Value): (r: Result<map<string, Value>>)
    ensures r.Ok? ==> row.Dict? && RowRequest(row.entries).Ok?
    ensures r.Ok? ==>
      var responses := backend(RowRequest(row.entries).value);
      var history := History(row.entries).items;
      && |responses| > 0
      && r.value.Keys == ResponseFields + {"history"}
      && r.value - {"history"} == AsDict(responses[0]) - {"history"}
      && r.value["history"].List?
      && |r.value["history"].items| == |history| + 2
      && r.value["history"].items[..|history|] == history
      && r.value["history"].items[|history|] == UserMessage(Prompt(row.entries))
      && r.value["history"].items[|history| + 1] == AssistantMessage(responses[0].output)
    ensures !row.Dict? ==> r == Err(AttributeError("get"))
    ensures row.Dict? && RowRequest(row.entries).Ok? && |backend(RowRequest(row.entries).value)| == 0
        ==> r == Err(IndexError)
    ensures row.Dict? && RowRequest(row.entries).Ok? && |backend(RowRequest(row.entries).value)| > 0
        ==> r.Ok?
    ensures row.Dict? && RowRequest(row.entries).Err? ==> r == Err(TypeError)
  {
    if !row.Dict? then Err(AttributeError("get"))
    else
      match RowRequest(row.entries)
      case Err(e) => Err(e)
      case Ok(keywords) =>
        var responses := backend(keywords);
        if |responses| == 0 then Err(IndexError)
        else
          var history := History(row.entries).items;
          var newHistory := history + [UserMessage(Prompt(row.entries))] + [AssistantMessage(responses[0].output)];
          Ok(AsDict(responses[0])["history" := List(newHistory)])
  }

  /** The loop `for key in [...]: value.pop(key, "")`: every listed key is gone,
      every other key keeps its value. */
  method StripKeys(value: map<string, Value>, keys: seq<string>) returns (stripped: map<string, Value>)
    ensures forall k :: k in stripped <==> k in value && k !in keys
    ensures forall k :: k in stripped ==> stripped[k] == value[k]
  {
    stripped := value;
    for i := 0 to |keys|
      invariant forall k :: k in stripped <==> k in value && k !in keys[..i]
      invariant forall k :: k in stripped ==> stripped[k] == value[k]
    {
      assert keys[..i + 1] == keys[..i] + [keys[i]];
      stripped := stripped - {keys[i]};
    }
    assert keys[..|keys|] == keys;
  }

  /** chat: `conf["UDF_CLIENT"]` is read before any row, so a configuration
      without it raises KeyError; otherwise one result per input row, in input
      order, and the first row that raises ends the whole call with its exception. */
  method Chat(backend: ChatBackend, conf: map<string, string>, rows: seq<Value>)
    returns (r: Result<seq<map<string, Value>>>)
    ensures "UDF_CLIENT" !in conf ==> r == Err(KeyError("UDF_CLIENT"))
    ensures "UDF_CLIENT" in conf ==>
      (r.Ok? <==> forall i :: 0 <= i < |rows| ==> ChatRow(backend, rows[i]).Ok?)
    ensures "UDF_CLIENT" in conf && r.Ok? ==>
      |r.value| == |rows| && forall i :: 0 <= i < |rows| ==> ChatRow(backend, rows[i]) == Ok(r.value[i])
    ensures "UDF_CLIENT" in conf && r.Err? ==>
      exists k :: 0 <= k < |rows| && ChatRow(backend, rows[k]) == Err(r.error)
                  && forall i :: 0 <= i < k ==> ChatRow(backend, rows[i]).Ok?
  {
    if "UDF_CLIENT" !in conf {
      return Err(KeyError("UDF_CLIENT"));
    }
    var result: seq<map<string, Value>> := [];
    for n := 0 to |rows|
      invariant |result| == n
      invariant forall i :: 0 <= i < n ==> ChatRow(backend, rows[i]) == Ok(result[i])
    {
      if !rows[n].Dict? {
        return Err(AttributeError("get"));
      }
      var value := rows[n].entries;
      var v := Get(value, "query", Get(value, "instruction", Str("")));
      var history := Get(value, "history", List([]));
      value := StripKeys(value, ReservedKeys);
      if !history.List? {
        return Err(TypeError);
      }
      var conversations := history.items + [UserMessage(v)];
      assert value == Config(rows[n].entries);
      var t := backend(map["conversations" := List(conversations), "llm_config" := Dict(value)]);
      if |t| == 0 {
        return Err(IndexError);
      }
      var response := AsDict(t[0]);
      var newHistory := history.items + [UserMessage(v)] + [AssistantMessage(response["output"].s)];
      response := response["history" := List(newHistory)];
      result := result + [response];
    }
    return Ok(result);
  }

  /** The keys `deploy` removes from `infer_params`. */
  const DeployKeys: set<string> := {"pretrainedModelType", "localModelDir", "udfName", "modelTable", "reconnect"}

  /** What `llm.deploy` and the worker setup receive. */
  datatype DeployCall = DeployCall(
    modelPath: Value,
    pretrainedModelType: Value,
    udfName: string,
    inferParams: map<string, Value>,
    numWorkers: int,
    gpusPerWorker: int)

  /** `int(conf.get(key, 1))`, with the conversion of a configuration string given
      as `toInt`; a string it rejects raises ValueError. */
  function ConfCount(conf: map<string, string>, key: string, toInt: string -> Option<int>): (r: Result<int>)
    ensures key !in conf ==> r == Ok(1)
    ensures key in conf ==> (r.Ok? <==> toInt(conf[key]).Some?)
    ensures key in conf && r.Ok? ==> r.value == toInt(conf[key]).value
    ensures key in conf && r.Err? ==> r.error == ValueError("invalid literal for int() with base 10")
  {
    if key !in conf then Ok(1)
    else match toInt(conf[key])
      case Some(n) => Ok(n)
      case None => Err(ValueError("invalid literal for int() with base 10"))
  }

  /** deploy: `pretrainedModelType` defaults to "custom/auto" and `localModelDir`
      to ""; the five bookkeeping keys are removed and every other key of
      `infer_params` is forwarded unchanged. */
  method Deploy(inferParams: Value, conf: map<string, string>, toInt: string -> Option<int>)
    returns (r: Result<DeployCall>)
    ensures r.Ok? <==>
      && ConfCount(conf, "num_gpus", toInt).Ok?
      && ConfCount(conf, "maxConcurrency", toInt).Ok?
      && inferParams.Dict?
      && "UDF_CLIENT" in conf
    ensures ConfCount(conf, "num_gpus", toInt).Err? ==> r == Err(ConfCount(conf, "num_gpus", toInt).error)
    ensures ConfCount(conf, "num_gpus", toInt).Ok? && ConfCount(conf, "maxConcurrency", toInt).Err?
        ==> r == Err(ConfCount(conf, "maxConcurrency", toInt).error)
    ensures ConfCount(conf, "num_gpus", toInt).Ok? && ConfCount(conf, "maxConcurrency", toInt).Ok? && !inferParams.Dict?
        ==> r == Err(AttributeError("get"))
    ensures r.Err? && inferParams.Dict? && ConfCount(conf, "num_gpus", toInt).Ok? && ConfCount(conf, "maxConcurrency", toInt).Ok?
        ==> r == Err(KeyError("UDF_CLIENT"))
    ensures r.Ok? ==>
      var params := inferParams.entries;
      && r.value.pretrainedModelType == (if "pretrainedModelType" in params then params["pretrainedModelType"] else Str("custom/auto"))
      && r.value.modelPath == (if "localModelDir" in params then params["localModelDir"] else Str(""))
      && r.value.inferParams.Keys == params.Keys - DeployKeys
      && (forall k :: k in r.value.inferParams ==> r.value.inferParams[k] == params[k])
      && r.value.udfName == conf["UDF_CLIENT"]
      && r.value.gpusPerWorker == ConfCount(conf, "num_gpus", toInt).value
      && r.value.numWorkers == ConfCount(conf, "maxConcurrency", toInt).value
  {
    var numGpus := ConfCount(conf, "num_gpus", toInt);
    if numGpus.Err? {
      return Err(numGpus.error);
    }
    var numWorkers := ConfCount(conf, "maxConcurrency", toInt);
    if numWorkers.Err? {
      return Err(numWorkers.error);
    }
    if !inferParams.Dict? {
      return Err(AttributeError("get"));
    }
    var params := inferParams.entries;
    var pretrainedModelType := Get(params, "pretrainedModelType", Str("custom/auto"));
    var modelPath := Get(params, "localModelDir", Str(""));
    params := params - {"pretrainedModelType"};
    params := params - {"localModelDir"};
    params := params - {"udfName"};
    params := params - {"modelTable"};
    params := params - {"reconnect"};
    if "UDF_CLIENT" !in conf {
      return Err(KeyError("UDF_CLIENT"));
    }
    return Ok(DeployCall(modelPath, pretrainedModelType, conf["UDF_CLIENT"], params,
                         numWorkers.value, numGpus.value));
  }
}
