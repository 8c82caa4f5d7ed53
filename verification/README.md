# Byzer-LLM agent helpers and SQL UDF, modelled in Dafny

This project models the small pure-Python core of byzer-llm's agent package and of its Byzer SQL user-defined function:

- **Agent handles.** An agent is an in-process `Agent` object, a string naming a registered Ray actor, or a remote actor handle. `get_agent_name` and `run_agent_func` branch on which one they get. The model is the datatype `AgentHandle` with `Local`, `NameRef` and `Remote` variants. The Ray operations come in as a `Runtime` record of functions.
- **Message helpers.** `copy_message`, `modify_message_metadata`, `modify_message_content` and `modify_last_message` each deep-copy their input and then edit the copy.
- **`qwen_chat`.** It wraps system messages in Qwen's chat markers, in place in the caller's list. It calls the backend with merged options, then cuts the reply at the first `<|im_end|>` and then at the first `<|endoftext|>`.
- **Group assembly.** `Agents.create_local_group` and `create_remote_group` validate their agents (local path only). They split the group-policy keyword arguments from the rest and build a `GroupChat` and its manager agent. This goes through the factory signature `(cls, name, llm, retrieval, *args, **kwargs)`, whose binding follows Python's calling rules.
- **SQL UDF.** `chat` turns each input row into one backend call and one result row. `deploy` drops five bookkeeping keys from the inference parameters and applies two defaults.

Python values are the datatype `PyValues.Value`. JSON-like data is represented exactly. Every other object (an LLM client, a class, a callable filter) is an opaque tag. Raised exceptions are the `Err` side of `PyValues.Result`. Python's "multiple values for keyword argument" TypeError is `PyValues.MergeKeywords`.

Errors are the Python exceptions the code raises: `IndexError`, `KeyError`, `TypeError`, `AttributeError` and `ValueError`. The remote paths have no failure semantics.

Files: `py_values.dfy`, `agent_core.dfy`, `agent_messages.dfy`, `qwen_chat.dfy`, `agent_groups.dfy`, `byzer_sql.dfy`.

## Model

| member | source | states |
|---|---|---|
| `AgentCore.ResponseDefaultsAndRoundTrip` | src/byzerllm/apps/agent/__init__.py:14-20 | a ChatResponse built without `variables` has an empty one; its dictionary form reads back as the same response |
| `AgentCore.AsDict` | src/byzerllm/apps/byzer_sql/__init__.py:117 | `asdict` of a response has exactly the five field keys, `output` carrying the response's text |
| `AgentCore.GetAgentName` | src/byzerllm/apps/agent/__init__.py:22-30 | an Agent's name is its `name` attribute and a string names itself, for every runtime; only a remote handle asks its actor |
| `AgentCore.Lookup` | src/byzerllm/apps/agent/__init__.py:35 | `getattr` on an Agent: `name` is always a data attribute; any other attribute is found exactly when the agent has it, with its own kind (method or data) |
| `AgentCore.RunAgentFunc` | src/byzerllm/apps/agent/__init__.py:32-39 | on an Agent: AttributeError for a missing attribute, TypeError for a data attribute, otherwise the method's own outcome, exceptions included; a string runs on the actor the registry gives for it, a remote handle on itself |
| `AgentCore.DispatchByKind` | src/byzerllm/apps/agent/__init__.py:32-39 | a call through a name equals the call on the actor registered under it; a call on an Agent depends only on its own methods, not on `getName`, `getActor` or `call`; running `name` raises TypeError |
| `AgentMessages.CopyMessage` | src/byzerllm/apps/agent/__init__.py:41-42 | the recursive deep copy is equal to its input at every depth |
| `AgentMessages.ModifyMessageMetadata` | src/byzerllm/apps/agent/__init__.py:44-50 | the result has `metadata`, created empty if absent; it holds every keyword argument and keeps the other metadata keys and every other top-level key; TypeError exactly when an existing non-dictionary `metadata` would be written to |
| `AgentMessages.ModifyMessageContent` | src/byzerllm/apps/agent/__init__.py:52-55 | the result's `content` is the new text and every other key is the input's |
| `AgentMessages.ModifyLastMessage` | src/byzerllm/apps/agent/__init__.py:57-60 | IndexError exactly on an empty list; otherwise the same length, the last element replaced, every earlier element the input's |
| `AgentMessages.ModifyLastMessageIdempotent` | src/byzerllm/apps/agent/__init__.py:57-60 | replacing the last message twice with the same message equals replacing it once |
| `QwenChat.WrapSystem` | src/byzerllm/apps/agent/__init__.py:67-68 | a system message's content becomes `<|im_start|>system\n` + content + `<|im_end|>`, other messages are unchanged; KeyError('role') without `role`, KeyError('content') for a system message without content, TypeError for non-text content, and no error otherwise |
| `QwenChat.WrapSystemMessages` | src/byzerllm/apps/agent/__init__.py:66-68 | the caller's list is rewritten in place message by message; on the first message that raises, the earlier ones are wrapped and the rest untouched |
| `QwenChat.ChatOptions` | src/byzerllm/apps/agent/__init__.py:74-81 | the option keys are defaults, `llm_config` and fixed keys together; the three `generation.*` options always win, `llm_config` wins over the defaults |
| `QwenChat.CallKeywordsNotOptions` | src/byzerllm/apps/agent/__init__.py:70-81 | the merged options name `conversations` or `role_mapping` only when `llm_config` does |
| `QwenChat.QwenRequest` | src/byzerllm/apps/agent/__init__.py:70-81 | the backend gets the wrapped conversation, the fixed role mapping and the merged options; TypeError exactly when `llm_config` repeats a keyword of the call |
| `QwenChat.PrefixLacks` | src/byzerllm/apps/agent/__init__.py:85-86 | a prefix of a text without a marker has no marker either |
| `QwenChat.SplitFirst` | src/byzerllm/apps/agent/__init__.py:84 | `split(sep)[0]` is the prefix that ends where `sep` first occurs, or the whole text when it never does |
| `QwenChat.CutTwice` | src/byzerllm/apps/agent/__init__.py:83-86 | cutting at the first `first` and then, inside that prefix, at the first `second`; the result contains neither separator |
| `QwenChat.TrimStopTokens` | src/byzerllm/apps/agent/__init__.py:82-86 | the reply cut at the first `<|im_end|>` and then at the first `<|endoftext|>`: a prefix of the output without either marker, unchanged when neither occurs |
| `QwenChat.QwenReply` | src/byzerllm/apps/agent/__init__.py:70-87 | TypeError when the call's keywords clash, IndexError for an empty backend answer, otherwise the first response's output trimmed at the stop markers |
| `QwenChat.QwenChat` | src/byzerllm/apps/agent/__init__.py:63-87 | a missing list raises TypeError; otherwise the list is wrapped in place up to the first failing message, and the result is that failure or the reply of the wrapped conversation |
| `AgentGroups.BindFactoryCall` | src/byzerllm/apps/agent/__init__.py:93-99 | each of `cls`, `name`, `llm`, `retrieval` takes its positional or its keyword argument; TypeError when both or neither are given; surplus positional arguments become `args`, other keywords `kwargs` |
| `AgentGroups.SplitGroupParameters` | src/byzerllm/apps/agent/__init__.py:109-114 | the policy keys present move to the group dictionary, all other keys stay; every key ends on exactly one side with its value |
| `AgentGroups.ManagerCallAsWritten` | src/byzerllm/apps/agent/__init__.py:117-119 | any exception the manager's construction as written raises is TypeError; without extra positional arguments it succeeds exactly when `kwargs` names none of `cls`, `name`, `llm`, `retrieval`, `groupchat` |
| `AgentGroups.ManagerCallAsWrittenRejectsArgs` | src/byzerllm/apps/agent/__init__.py:117-119 | as written, any extra positional argument makes the manager's construction raise TypeError |
| `AgentGroups.ManagerCall` | src/byzerllm/apps/agent/__init__.py:117-119 | the corrected manager construction gets the group name, llm, retrieval, the GroupChat, the forwarded `args` and the non-policy `kwargs`; TypeError exactly when `kwargs` repeats `cls`, `name` or `groupchat` |
| `AgentGroups.ManagerCallAgreesWithoutArgs` | src/byzerllm/apps/agent/__init__.py:117-119 | without extra positional arguments the source's call and the corrected one construct the same manager |
| `AgentGroups.CreateLocalGroup` | src/byzerllm/apps/agent/__init__.py:101-120 | ValueError, with nothing constructed, exactly when some agent is not an Agent; otherwise a GroupChat with the agents and the policy keys is built first, then an in-process manager with the rest |
| `AgentGroups.CreateRemoteGroup` | src/byzerllm/apps/agent/__init__.py:122-138 | no agent check; the same GroupChat, then a manager created as a remote actor with the non-policy arguments |
| `ByzerSql.Prompt` | src/byzerllm/apps/byzer_sql/__init__.py:105 | the prompt is the row's `query`, else its `instruction`, else the empty string |
| `ByzerSql.Config` | src/byzerllm/apps/byzer_sql/__init__.py:108-109 | the config holds exactly the row's non-reserved keys, with their values |
| `ByzerSql.StripKeys` | src/byzerllm/apps/byzer_sql/__init__.py:108-109 | after the pops no listed key remains and every other key keeps its value |
| `ByzerSql.RowRequest` | src/byzerllm/apps/byzer_sql/__init__.py:106-115 | the backend gets the history followed by exactly one user message with the prompt, and `llm_config` without reserved keys; TypeError exactly when the history is not a list |
| `ByzerSql.ChatRow` | src/byzerllm/apps/byzer_sql/__init__.py:104-129 | a dictionary row with a list history and a non-empty answer gives a result row: the first response's fields plus `history`, which is the old history, the user message and the assistant's output, `|history| + 2` messages; AttributeError for a non-dictionary row, TypeError for a non-list history, IndexError for an empty answer |
| `ByzerSql.Chat` | src/byzerllm/apps/byzer_sql/__init__.py:88-131 | KeyError before any row when the configuration lacks `UDF_CLIENT`; otherwise one result per input row, in input order, or the first failing row's exception |
| `ByzerSql.ConfCount` | src/byzerllm/apps/byzer_sql/__init__.py:149-150 | an absent configuration key counts 1; a present one is converted, ValueError exactly when it is not an integer literal |
| `ByzerSql.Deploy` | src/byzerllm/apps/byzer_sql/__init__.py:147-171 | `pretrainedModelType` defaults to "custom/auto" and `localModelDir` to ""; the forwarded parameters lack the five bookkeeping keys and keep every other key; errors arise in the source's order |

## Findings

| source | as written | input that shows it | evidently intended | confidence | as-written member | corrected member |
|---|---|---|---|---|---|---|
| src/byzerllm/apps/agent/__init__.py:117-119 (and 135-137) | `create_*_agent(GroupChatManager, name=group_name, ..., *args, **kwargs)` unpacks `*args` as positional arguments, so `args[0]` binds to the factory's `name` parameter as well as the keyword `name=`: TypeError | `create_local_group("team", [a], llm, retrieval, 1)` | the extra positional arguments reach the manager's constructor | not executed | `AgentGroups.ManagerCallAsWrittenRejectsArgs` | `AgentGroups.ManagerCall` |

`CreateLocalGroup` and `CreateRemoteGroup` use the corrected `ManagerCall`. `ManagerCallAgreesWithoutArgs` shows that the correction changes nothing when `args` is empty.

## Left out

- Ray runtime: `ray.get`, `ray.get_actor` and `.remote()` are the function fields of `AgentCore.Runtime`. A missing actor, an unreachable actor and a missing remote method are not modelled.
- Agent and actor state: `Runtime.invokeLocal` and `Runtime.call` are functions of their arguments. A method that changes the agent's or actor's own state, and so answers differently on a second call, is not modelled.
- `create_remote_agent` and `create_local_agent` are modelled as their argument binding (`BindFactoryCall`) and a placement. Actor spawning, `max_concurrency=10`, actor-name registration and name collisions are cluster-runtime behaviour and are not modelled.
- `GroupChat` and `GroupChatManager` are defined in a module that is not part of this model. Their constructions are recorded as the arguments they receive.
- `llm.chat_oai` is the parameter `ChatBackend`. It may answer with an empty list, which the model turns into the IndexError the code would raise.
- Aliasing and Python dict insertion order are not modelled, because messages are immutable values. "The input is never changed" therefore holds by construction for the copy-then-edit helpers. The in-place rewrite in `qwen_chat` is modelled on the slots of the caller's list. Other references to the same dictionaries are not modelled.
- JSON: row values, `history` and `infer_params` are taken as already decoded. A decoding failure is not modelled. `json.dumps` of each result row is left out, so a result row is the response dictionary itself.
- `int()` of a configuration string is the parameter `toInt` of `Deploy`. Python's integer-literal syntax is not modelled.
- The LLM client setup in `chat` (`ByzerLLM()`, `setup_template`, the default model names and the extra generation parameters temperature 0.01 and top_p 0.99) is left out entirely: `Chat` reads `UDF_CLIENT` only for its KeyError, and the backend parameter stands for the client as configured.
- In `deploy`, the counts handed to `setup_num_workers` and `setup_gpus_per_worker` are recorded in `DeployCall`. The client calls themselves are not modelled.
- `_connect`, `prepare_env` and the `Env` dataclass are filesystem probing and cluster setup. `ray_context` I/O is plumbing.
- Floating-point option values are exact reals.
- `ModifyMessageMetadata` assumes that an existing non-dictionary `metadata` object does not support item assignment.
- The saas/qianwen backend, the llama and llama2 model loaders and the DPO training script are HTTP, threads, torch and file I/O, and are not part of this model.
