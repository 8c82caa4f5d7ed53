/** Agent and group construction of the agent package (class Agents): the agent
    factory's argument binding, the split of group-policy keyword arguments from
    the manager's, and the assembly of a group chat with its manager agent. */
module AgentGroups {
  import opened PyValues
  import opened AgentCore

  // ---------------------------------------------------------------- factory

  /** Where the factory puts the agent: create_local_agent or create_remote_agent. */
  datatype Placement = InProcess | Actor

  /** The named parameters of create_local_agent / create_remote_agent, in order:
      `(cls, name, llm, retrieval, *args, **kwargs)`. */
  const FactoryParameters: seq<string> := ["cls", "name", "llm", "retrieval"]
  const FactoryParameterSet: set<string> := set p | p in FactoryParameters

  /** The arguments the factory binds, which it hands on to `cls(name=name, llm=llm,
      retrieval=retrieval, *args, **kwargs)`. */
  datatype FactoryCall<V> = FactoryCall(cls: V, name: V, llm: V, retrieval: V, args: seq<V>, kwargs: map<string, V>)
  {
    /** The value bound to the i-th named parameter. */
    function Parameter(i: nat): V
      requires i < 4
    {
      [cls, name, llm, retrieval][i]
    }
  }

  /** Python's binding of a call `factory(*positional, **keywords)` to the factory
      signature: each of the four named parameters takes the positional argument in
      its place or else the keyword argument of its name; having both, or neither,
      raises TypeError. Surplus positional arguments become `args`, the other
      keyword arguments `kwargs`. */
  function BindFactoryCall<V>(positional: seq<V>, keywords: map<string, V>): (r: Result<FactoryCall<V>>)
    ensures r.Ok? <==> forall i :: 0 <= i < 4 ==> (i < |positional| <==> FactoryParameters[i] !in keywords)
    ensures r.Err? ==> r.error == TypeError
    ensures r.Ok? ==> forall i :: 0 <= i < 4 ==>
      r.value.Parameter(i) == if i < |positional| then positional[i] else keywords[FactoryParameters[i]]
    ensures r.Ok? ==> r.value.args == (if |positional| <= 4 then [] else positional[4..])
    ensures r.Ok? ==> r.value.kwargs == keywords - FactoryParameterSet
  {
    if exists i :: 0 <= i < 4 && (i < |positional| <==> FactoryParameters[i] in keywords) then
      Err(TypeError)
    else
      var bound := seq(4, i requires 0 <= i < 4 =>
        if i < |positional| then positional[i] else keywords[FactoryParameters[i]]);
      Ok(FactoryCall(bound[0], bound[1], bound[2], bound[3],
                     if |positional| <= 4 then [] else positional[4..],
                     keywords - FactoryParameterSet))
  }

  // ---------------------------------------------------------------- group chat

  /** The keyword arguments that are group policy rather than manager arguments. */
  const GroupParameters: seq<string> := ["messages", "max_round", "admin_name", "func_call_filter"]
  const GroupParameterSet: set<string> := set p | p in GroupParameters

  /** The arguments the GroupChat constructor receives: `GroupChat(agents=agents, **group_parameters_dict)`. */
  datatype GroupChatCall = GroupChatCall(agents: seq<AgentHandle>, options: map<string, Value>)

  /** An argument of the manager's construction: a plain value, or the GroupChat
      object built just before it. */
  datatype Argument = Val(value: Value) | GroupChatObject(call: GroupChatCall)

  /** The constructor calls a group assembly makes, in order. */
  datatype Construction =
    | GroupChatBuilt(group: GroupChatCall)
    | ManagerBuilt(placement: Placement, manager: FactoryCall<Argument>)

  const GroupChatManagerClass: Value := Opaque("GroupChatManager")

  const NotAgentsMessage: string := "agents must be a list of Agent objects"

  function Lift(values: seq<Value>): (r: seq<Argument>)
    ensures |r| == |values| && forall i :: 0 <= i < |values| ==> r[i] == Val(values[i])
  {
    seq(|values|, i requires 0 <= i < |values| => Val(values[i]))
  }

  function LiftMap(values: map<string, Value>): (r: map<string, Argument>)
    ensures r.Keys == values.Keys && forall k :: k in values ==> r[k] == Val(values[k])
  {
    map k | k in values :: Val(values[k])
  }

  /** The loop over `group_parameters`: each policy key present in `kwargs` is
      copied into the group dictionary and deleted from `kwargs`. Every key ends
      up on exactly one side, with its value unchanged. */
  method SplitGroupParameters(kwargs: map<string, Value>) returns (group: map<string, Value>, rest: map<string, Value>)
    ensures group.Keys == kwargs.Keys * GroupParameterSet
    ensures rest.Keys == kwargs.Keys - GroupParameterSet
    ensures group.Keys + rest.Keys == kwargs.Keys && group.Keys !! rest.Keys
    ensures forall k :: k in group ==> group[k] == kwargs[k]
    ensures forall k :: k in rest ==> rest[k] == kwargs[k]
  {
    group, rest := map[], kwargs;
    for i := 0 to |GroupParameters|
      invariant forall k :: k in group <==> k in kwargs && k in GroupParameters[..i]
      invariant forall k :: k in rest <==> k in kwargs && k !in GroupParameters[..i]
      invariant forall k :: k in group ==> group[k] == kwargs[k]
      invariant forall k :: k in rest ==> rest[k] == kwargs[k]
    {
      var parameter := GroupParameters[i];
      assert GroupParameters[..i + 1] == GroupParameters[..i] + [parameter];
      if parameter in rest {
        group := group[parameter := rest[parameter]];
        rest := rest - {parameter};
      }
    }
    assert GroupParameters[..|GroupParameters|] == GroupParameters;
  }

  /** The manager's construction as the source writes it:
      `create_*_agent(GroupChatManager, name=group_name, llm=llm, retrieval=retrieval,
      groupchat=groupchat, *args, **kwargs)`. The unpacked `*args` are positional, so
      they land after `cls` in the parameters `name`, `llm`, ... */
  function ManagerCallAsWritten(groupName: string, llm: Value, retrieval: Value, group: GroupChatCall,
                                args: seq<Value>, kwargs: map<string, Value>): (r: Result<FactoryCall<Argument>>)
    ensures r.Err? ==> r.error == TypeError
    ensures args == [] ==> (r.Ok? <==> kwargs.Keys !! {"cls", "name", "llm", "retrieval", "groupchat"})
  {
    var explicit := map["name" := Val(Str(groupName)), "llm" := Val(llm), "retrieval" := Val(retrieval),
                        "groupchat" := GroupChatObject(group)];
    assert explicit.Keys == {"name", "llm", "retrieval", "groupchat"};
    match MergeKeywords(explicit, LiftMap(kwargs))
    case Err(e) =>
      assert !(kwargs.Keys !! {"cls", "name", "llm", "retrieval", "groupchat"});
      Err(e)
    case Ok(keywords) =>
      var positional := [Val(GroupChatManagerClass)] + Lift(args);
      assert forall i :: 1 <= i < 4 ==> FactoryParameters[i] in keywords;
      assert "cls" in keywords <==> "cls" in kwargs;
      assert FactoryParameters[0] == "cls";
      assert args == [] && "cls" !in keywords ==>
        forall i :: 0 <= i < 4 ==> (i < |positional| <==> FactoryParameters[i] !in keywords);
      BindFactoryCall(positional, keywords)
  }

  /** As written, any extra positional argument makes the manager's construction
      raise TypeError ("got multiple values for argument 'name'"): the group
      factories can never forward `*args`. */
  lemma {:induction false} ManagerCallAsWrittenRejectsArgs(groupName: string, llm: Value, retrieval: Value,
                                                           group: GroupChatCall, args: seq<Value>, kwargs: map<string, Value>)
    requires args != []
    ensures ManagerCallAsWritten(groupName, llm, retrieval, group, args, kwargs) == Err(TypeError)
  {
    var explicit := map["name" := Val(Str(groupName)), "llm" := Val(llm), "retrieval" := Val(retrieval),
                        "groupchat" := GroupChatObject(group)];
    var merged := MergeKeywords(explicit, LiftMap(kwargs));
    if merged.Ok? {
      var positional := [Val(GroupChatManagerClass)] + Lift(args);
      assert 1 < |positional| && FactoryParameters[1] in merged.value;
    }
  }

  /** The manager's construction as evidently intended: `name`, `llm` and
      `retrieval` bound to the group's values and `*args` forwarded to the manager.
      It raises TypeError only when `kwargs` repeats `cls`, `name` or `groupchat`. */
  function ManagerCall(groupName: string, llm: Value, retrieval: Value, group: GroupChatCall,
                       args: seq<Value>, kwargs: map<string, Value>): (r: Result<FactoryCall<Argument>>)
    requires "llm" !in kwargs && "retrieval" !in kwargs
    ensures r.Ok? <==> kwargs.Keys !! {"cls", "name", "groupchat"}
    ensures r.Err? ==> r.error == TypeError
    ensures r.Ok? ==>
      && r.value.cls == Val(GroupChatManagerClass)
      && r.value.name == Val(Str(groupName))
      && r.value.llm == Val(llm)
      && r.value.retrieval == Val(retrieval)
      && r.value.args == Lift(args)
      && r.value.kwargs == LiftMap(kwargs)["groupchat" := GroupChatObject(group)]
  {
    match MergeKeywords(map["groupchat" := GroupChatObject(group)], LiftMap(kwargs))
    case Err(e) => Err(e)
    case Ok(keywords) =>
      var positional := [Val(GroupChatManagerClass), Val(Str(groupName)), Val(llm), Val(retrieval)] + Lift(args);
      var r := BindFactoryCall(positional, keywords);
      if r.Ok? then
        var expected := LiftMap(kwargs)["groupchat" := GroupChatObject(group)];
        assert FactoryParameters[0] !in keywords && FactoryParameters[1] !in keywords;
        assert "cls" !in kwargs && "name" !in kwargs;
        assert r.value.kwargs.Keys == expected.Keys;
        assert r.value.kwargs == expected;
        r
      else r
  }

  /** Without extra positional arguments the source's call and the corrected one
      construct the same manager. */
  lemma ManagerCallAgreesWithoutArgs(groupName: string, llm: Value, retrieval: Value, group: GroupChatCall,
                                     kwargs: map<string, Value>)
    requires "llm" !in kwargs && "retrieval" !in kwargs
    ensures ManagerCallAsWritten(groupName, llm, retrieval, group, [], kwargs)
         == ManagerCall(groupName, llm, retrieval, group, [], kwargs)
  {
    var explicit := map["name" := Val(Str(groupName)), "llm" := Val(llm), "retrieval" := Val(retrieval),
                        "groupchat" := GroupChatObject(group)];
    var merged := MergeKeywords(explicit, LiftMap(kwargs));
    if merged.Ok? && "cls" !in kwargs {
      var asWritten := BindFactoryCall([Val(GroupChatManagerClass)] + Lift([]), merged.value);
      assert forall i :: 0 <= i < 4 ==> (i < 1 <==> FactoryParameters[i] !in merged.value);
      assert asWritten.Ok?;
      var expected := LiftMap(kwargs)["groupchat" := GroupChatObject(group)];
      assert asWritten.value.kwargs.Keys == expected.Keys;
      assert asWritten.value.kwargs == expected;
    }
  }

  /** Every element is an in-process Agent object. */
  predicate AllAgents(agents: seq<AgentHandle>)
  {
    forall i :: 0 <= i < |agents| ==> agents[i].Local?
  }

  /** The keyword arguments a group factory can receive: its own parameter names
      are bound by Python and never reach `kwargs`. */
  predicate GroupKeywords(kwargs: map<string, Value>)
  {
    kwargs.Keys !! {"group_name", "agents", "llm", "retrieval"}
  }

  /** Agents.create_local_group: rejects any element of `agents` that is not an
      Agent before constructing anything; otherwise builds the GroupChat from the
      policy keys and an in-process manager from the remaining arguments. */
  method CreateLocalGroup(groupName: string, agents: seq<AgentHandle>, llm: Value, retrieval: Value,
                          args: seq<Value>, kwargs: map<string, Value>)
    returns (r: Result<FactoryCall<Argument>>, constructed: seq<Construction>)
    requires GroupKeywords(kwargs)
    ensures !AllAgents(agents) <==> r == Err(ValueError(NotAgentsMessage))
    ensures !AllAgents(agents) ==> constructed == []
    ensures AllAgents(agents) ==>
      var group := GroupChatCall(agents, map k | k in kwargs && k in GroupParameterSet :: kwargs[k]);
      && r == ManagerCall(groupName, llm, retrieval, group, args, kwargs - GroupParameterSet)
      && constructed == [GroupChatBuilt(group)] + (if r.Ok? then [ManagerBuilt(InProcess, r.value)] else [])
  {
    if exists i :: 0 <= i < |agents| && !agents[i].Local? {
      return Err(ValueError(NotAgentsMessage)), [];
    }
    var policy, rest := SplitGroupParameters(kwargs);
    assert policy == map k | k in kwargs && k in GroupParameterSet :: kwargs[k];
    assert rest == kwargs - GroupParameterSet;
    var group := GroupChatCall(agents, policy);
    constructed := [GroupChatBuilt(group)];
    r := ManagerCall(groupName, llm, retrieval, group, args, rest);
    if r.Ok? {
      constructed := constructed + [ManagerBuilt(InProcess, r.value)];
    }
  }

  /** Agents.create_remote_group: the same split, with no check on the agents,
      and the manager created as a remote actor. */
  method CreateRemoteGroup(groupName: string, agents: seq<AgentHandle>, llm: Value, retrieval: Value,
                           args: seq<Value>, kwargs: map<string, Value>)
    returns (r: Result<FactoryCall<Argument>>, constructed: seq<Construction>)
    requires GroupKeywords(kwargs)
    ensures
      var group := GroupChatCall(agents, map k | k in kwargs && k in GroupParameterSet :: kwargs[k]);
      && r == ManagerCall(groupName, llm, retrieval, group, args, kwargs - GroupParameterSet)
      && constructed == [GroupChatBuilt(group)] + (if r.Ok? then [ManagerBuilt(Actor, r.value)] else [])
  {
    var policy, rest := SplitGroupParameters(kwargs);
    assert policy == map k | k in kwargs && k in GroupParameterSet :: kwargs[k];
    assert rest == kwargs - GroupParameterSet;
    var group := GroupChatCall(agents, policy);
    constructed := [GroupChatBuilt(group)];
    r := ManagerCall(groupName, llm, retrieval, group, args, rest);
    if r.Ok? {
      constructed := constructed + [ManagerBuilt(Actor, r.value)];
    }
  }
}
