/** qwen_chat of the agent package: system messages are wrapped in Qwen's chat
    markers in the caller's own list, the backend is called with merged options,
    and the reply is cut at the first end-of-turn and end-of-text marker. */
module QwenChat {
  import opened PyValues
  import opened AgentCore

  const ImStartSystem: string := "<|im_start|>system\n"
  const ImEnd: string := "<|im_end|>"
  const EndOfText: string := "<|endoftext|>"

  /** The `role_mapping` keyword argument. */
  const RoleMapping: map<string, Value> := map[
    "user_role" := Str("<|im_start|>user\n"),
    "assistant_role" := Str("<|im_end|>\n<|im_start|>assistant\n"),
    "system_msg" := Str("<|im_start|>system\nYou are a helpful assistant. Think it over and answer the user question correctly.<|im_end|>")]

  /** Options used unless `llm_config` sets them. */
  const DefaultOptions: map<string, Value> := map[
    "max_length" := Int(1024 * 16),
    "top_p" := Float(0.95),
    "temperature" := Float(0.01)]

  /** Options that always win over `llm_config`. */
  const FixedOptions: map<string, Value> := map[
    "generation.early_stopping" := Bool(false),
    "generation.repetition_penalty" := Float(1.1),
    "generation.stop_token_ids" := List([Int(151643)])]

  // ---------------------------------------------------------------- strings

  /** `sep in s` */
  predicate Contains(s: string, sep: string)
    decreases |s|
  {
    |sep| <= |s| && (s[..|sep|] == sep || Contains(s[1..], sep))
  }

  /** A prefix of a string that does not contain `sep` does not contain it either. */
  lemma {:induction false} PrefixLacks(p: string, s: string, sep: string)
    requires p <= s && !Contains(s, sep)
    ensures !Contains(p, sep)
    decreases |p|
  {
    if |sep| <= |p| {
      assert p[..|sep|] == s[..|sep|];
      PrefixLacks(p[1..], s[1..], sep);
    }
  }

  /** `r` is `s` cut at the first occurrence of `sep`: a prefix of `s` at no
      position of which `sep` starts, followed in `s` by `sep` unless it is all of `s`. */
  ghost predicate CutAtFirst(s: string, sep: string, r: string)
  {
    && r <= s
    && (forall j :: 0 <= j < |r| ==> !(sep <= s[j..]))
    && (r == s || sep <= s[|r|..])
  }

  /** `s.split(sep)[0]`: the text before the first occurrence of `sep`, or all
      of `s` when there is none. */
  function SplitFirst(s: string, sep: string): (r: string)
    requires |sep| > 0
    ensures CutAtFirst(s, sep, r)
    ensures !Contains(r, sep)
    ensures !Contains(s, sep) ==> r == s
    ensures Contains(s, sep) ==> sep <= s[|r|..]
    decreases |s|
  {
    if |s| < |sep| then s
    else if s[..|sep|] == sep then []
    else
      var rest := SplitFirst(s[1..], sep);
      var r := [s[0]] + rest;
      assert r <= s;
      assert |sep| <= |r| ==> r[..|sep|] == s[..|sep|];
      assert r[1..] == rest;
      assert !(sep <= s[0..]);
      assert forall j :: 1 <= j < |r| ==> s[j..] == s[1..][j - 1..];
      assert r != s ==> s[|r|..] == s[1..][|rest|..];
      r
  }

  /** Cut at the first `first`, then at the first `second`. The result is a prefix
      of `s` that contains neither separator and ends exactly where one of them
      begins, unless it is the whole of `s`. */
  function CutTwice(s: string, first: string, second: string): (r: string)
    requires |first| > 0 && |second| > 0
    ensures exists v :: CutAtFirst(s, first, v) && CutAtFirst(v, second, r)
    ensures r <= s
    ensures !Contains(r, first) && !Contains(r, second)
    ensures r == s || first <= s[|r|..] || second <= s[|r|..]
    ensures !Contains(s, first) && !Contains(s, second) ==> r == s
  {
    var v := SplitFirst(s, first);
    var w := SplitFirst(v, second);
    PrefixLacks(w, v, first);
    CutTwiceEnds(s, first, second, v, w);
    w
  }

  /** Two successive cuts end where the first separator begins in `s`, where
      the second begins, or at the end of `s`. */
  lemma CutTwiceEnds(s: string, first: string, second: string, v: string, w: string)
    requires |second| > 0
    requires CutAtFirst(s, first, v) && CutAtFirst(v, second, w)
    ensures w <= s
    ensures w == s || first <= s[|w|..] || second <= s[|w|..]
  {
  }

  /** The reply post-processing: cut at the first `<|im_end|>`, then at the first
      `<|endoftext|>`. */
  function TrimStopTokens(reply: string): (r: string)
    ensures exists v :: CutAtFirst(reply, ImEnd, v) && CutAtFirst(v, EndOfText, r)
    ensures r <= reply
    ensures !Contains(r, ImEnd) && !Contains(r, EndOfText)
    ensures r == reply || ImEnd <= reply[|r|..] || EndOfText <= reply[|r|..]
    ensures !Contains(reply, ImEnd) && !Contains(reply, EndOfText) ==> r == reply
  {
    CutTwice(reply, ImEnd, EndOfText)
  }

  // ---------------------------------------------------------------- options

  /** The options of the backend call: defaults, overridden by `llm_config`,
      overridden by the three fixed `generation.*` options. */
  function ChatOptions(llmConfig: map<string, Value>): (r: map<string, Value>)
    ensures r.Keys == DefaultOptions.Keys + llmConfig.Keys + FixedOptions.Keys
    ensures forall k :: k in FixedOptions ==> r[k] == FixedOptions[k]
    ensures forall k :: k in llmConfig && k !in FixedOptions ==> r[k] == llmConfig[k]
    ensures forall k :: k in DefaultOptions && k !in llmConfig && k !in FixedOptions ==> r[k] == DefaultOptions[k]
  {
    DefaultOptions + llmConfig + FixedOptions
  }

  /** The conversation as the list of dictionaries the backend receives. */
  function AsList(conversation: seq<Message>): (r: Value)
    ensures r.List? && |r.items| == |conversation|
    ensures forall i :: 0 <= i < |conversation| ==> r.items[i] == Dict(conversation[i])
  {
    List(seq(|conversation|, i requires 0 <= i < |conversation| => Dict(conversation[i])))
  }

  /** The keyword arguments of `llm.chat_oai(conversations=..., role_mapping=..., **options)`:
      TypeError when `llm_config` itself names `conversations` or `role_mapping`. */
  function QwenRequest(conversation: seq<Message>, llmConfig: map<string, Value>): (r: Result<map<string, Value>>)
    ensures r.Ok? <==> "conversations" !in llmConfig && "role_mapping" !in llmConfig
    ensures r.Err? ==> r.error == TypeError
    ensures r.Ok? ==> "conversations" in r.value && r.value["conversations"] == AsList(conversation)
    ensures r.Ok? ==> "role_mapping" in r.value && r.value["role_mapping"] == Dict(RoleMapping)
    ensures r.Ok? ==> r.value.Keys == {"conversations", "role_mapping"} + ChatOptions(llmConfig).Keys
    ensures r.Ok? ==> forall k :: k in ChatOptions(llmConfig) ==> r.value[k] == ChatOptions(llmConfig)[k]
  {
    var explicit := map["conversations" := AsList(conversation), "role_mapping" := Dict(RoleMapping)];
    CallKeywordsNotOptions(llmConfig);
    MergeKeywords(explicit, ChatOptions(llmConfig))
  }

  /** Neither the defaults nor the fixed options name a keyword of the call
      itself, so only `llm_config` can clash with one. */
  lemma CallKeywordsNotOptions(llmConfig: map<string, Value>)
    ensures "conversations" in ChatOptions(llmConfig) <==> "conversations" in llmConfig
    ensures "role_mapping" in ChatOptions(llmConfig) <==> "role_mapping" in llmConfig
  {
  }

  /** What qwen_chat returns once the system messages are wrapped: the first
      response's output, trimmed at the stop markers; IndexError when the backend
      answers with no response. */
  function QwenReply(backend: ChatBackend, conversation: seq<Message>, llmConfig: map<string, Value>): (r: Result<string>)
    ensures r.Ok? ==> QwenRequest(conversation, llmConfig).Ok?
    ensures r.Ok? ==>
      var responses := backend(QwenRequest(conversation, llmConfig).value);
      && |responses| > 0
      && r.value <= responses[0].output
      && !Contains(r.value, ImEnd) && !Contains(r.value, EndOfText)
    ensures QwenRequest(conversation, llmConfig).Ok? && |backend(QwenRequest(conversation, llmConfig).value)| == 0
        ==> r == Err(IndexError)
    ensures QwenRequest(conversation, llmConfig).Ok? && |backend(QwenRequest(conversation, llmConfig).value)| > 0
        ==> r == Ok(TrimStopTokens(backend(QwenRequest(conversation, llmConfig).value)[0].output))
    ensures QwenRequest(conversation, llmConfig).Err? ==> r == Err(TypeError)
  {
    match QwenRequest(conversation, llmConfig)
    case Err(e) => Err(e)
    case Ok(keywords) =>
      var responses := backend(keywords);
      if |responses| == 0 then Err(IndexError)
      else Ok(TrimStopTokens(responses[0].output))
  }

  // ---------------------------------------------------------------- in place

  /** One message before the call: a system message's content is wrapped in
      `<|im_start|>system\n ... <|im_end|>`; others are left alone. A message
      without `role`, or a system message without `content`, raises KeyError;
      non-text content raises TypeError at the concatenation. */
  function WrapSystem(m: Message): (r: Result<Message>)
    ensures r.Err? <==> "role" !in m || (m["role"] == Str("system") && ("content" !in m || !m["content"].Str?))
    ensures r.Err? ==> r.error == (if "role" !in m then KeyError("role") else if "content" !in m then KeyError("content") else TypeError)
    ensures r.Ok? && m["role"] != Str("system") ==> r.value == m
    ensures r.Ok? && m["role"] == Str("system") ==>
      r.value == m["content" := Str(ImStartSystem + m["content"].s + ImEnd)]
  {
    if "role" !in m then Err(KeyError("role"))
    else if m["role"] != Str("system") then Ok(m)
    else if "content" !in m then Err(KeyError("content"))
    else if !m["content"].Str? then Err(TypeError)
    else Ok(m["content" := Str(ImStartSystem + m["content"].s + ImEnd)])
  }

  /** The first `k` messages have been wrapped and the rest are as they were. */
  ghost predicate WrappedUpTo(before: seq<Message>, after: seq<Message>, k: nat)
  {
    && |after| == |before|
    && k <= |before|
    && (forall i :: 0 <= i < k ==> WrapSystem(before[i]) == Ok(after[i]))
    && (forall i :: k <= i < |before| ==> after[i] == before[i])
  }

  /** The loop over `conversations` that rewrites system messages in the
      caller's list, stopping at the first message that raises. */
  method WrapSystemMessages(conversations: array<Message>) returns (failure: Option<PyError>)
    modifies conversations
    ensures failure.None? ==> WrappedUpTo(old(conversations[..]), conversations[..], conversations.Length)
    ensures failure.Some? ==>
      exists k :: 0 <= k < conversations.Length
        && WrappedUpTo(old(conversations[..]), conversations[..], k)
        && WrapSystem(old(conversations[k])) == Err(failure.value)
  {
    var i := 0;
    while i < conversations.Length
      invariant 0 <= i <= conversations.Length
      invariant WrappedUpTo(old(conversations[..]), conversations[..], i)
    {
      match WrapSystem(conversations[i])
      case Err(e) =>
        assert WrappedUpTo(old(conversations[..]), conversations[..], i);
        return Some(e);
      case Ok(m) =>
        conversations[i] := m;
      i := i + 1;
    }
    return None;
  }

  /** qwen_chat: wraps the system messages in place, then calls the backend and
      trims its first output. Iterating a missing conversation list raises TypeError. */
  method QwenChat(backend: ChatBackend, conversations: array?<Message>, llmConfig: map<string, Value>)
    returns (r: Result<string>)
    modifies conversations
    ensures conversations == null ==> r == Err(TypeError)
    ensures conversations != null ==>
      || (exists k :: 0 <= k < conversations.Length
            && WrappedUpTo(old(conversations[..]), conversations[..], k)
            && WrapSystem(old(conversations[k])).Err?
            && r == Err(WrapSystem(old(conversations[k])).error))
      || (&& WrappedUpTo(old(conversations[..]), conversations[..], conversations.Length)
          && r == QwenReply(backend, conversations[..], llmConfig))
  {
    if conversations == null {
      return Err(TypeError);
    }
    var failure := WrapSystemMessages(conversations);
    if failure.Some? {
      return Err(failure.value);
    }
    var request := QwenRequest(conversations[..], llmConfig);
    if request.Err? {
      return Err(request.error);
    }
    var t := backend(request.value);
    if |t| == 0 {
      return Err(IndexError);
    }
    var v := t[0].output;
    if Contains(v, ImEnd) {
      v := SplitFirst(v, ImEnd);
    }
    if Contains(v, EndOfText) {
      v := SplitFirst(v, EndOfText);
    }
    return Ok(v);
  }
}
