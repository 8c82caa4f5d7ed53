/** The chat response record and location-transparent agent dispatch of the agent
    package: an agent is an in-process object, a registered actor name, or a
    remote actor handle, and name resolution and method invocation branch on which. */
module AgentCore {
  import opened PyValues

  /** One response of a chat backend. `variables` defaults to an empty dictionary. */
  datatype ChatResponse = ChatResponse(
    status: int,
    output: string,
    code: string,
    prompt: string,
    variables: map<string, Value> := map[])

  /** `llm.chat_oai(**keywords)`: the model backend, given the keyword arguments of
      the call and answering with a list of responses. Its workings are not part of
      this model. */
  type ChatBackend = map<string, Value> -> seq<ChatResponse>

  /** The field names `dataclasses.asdict` produces for a ChatResponse. */
  const ResponseFields: set<string> := {"status", "output", "code", "prompt", "variables"}

  /** `dataclasses.asdict(response)` */
  function AsDict(response: ChatResponse): (d: map<string, Value>)
    ensures d.Keys == ResponseFields
    ensures d["output"] == Str(response.output)
  {
    map[
      "status" := Int(response.status),
      "output" := Str(response.output),
      "code" := Str(response.code),
      "prompt" := Str(response.prompt),
      "variables" := Dict(response.variables)]
  }

  /** Reads a ChatResponse back from the dictionary form; None when a field is
      missing or has the wrong type. The partner of AsDict. */
  function FromDict(d: map<string, Value>): (r: Option<ChatResponse>)
    ensures r.Some? ==> ResponseFields <= d.Keys
  {
    if ResponseFields <= d.Keys
       && d["status"].Int? && d["output"].Str? && d["code"].Str? && d["prompt"].Str?
       && d["variables"].Dict?
    then Some(ChatResponse(d["status"].i, d["output"].s, d["code"].s, d["prompt"].s, d["variables"].entries))
    else None
  }

  /** Building a response without `variables` leaves it empty, and the dictionary
      form of any response reads back as the same response. */
  lemma ResponseDefaultsAndRoundTrip(status: int, output: string, code: string, prompt: string, response: ChatResponse)
    ensures ChatResponse(status, output, code, prompt).variables == map[]
    ensures FromDict(AsDict(response)) == Some(response)
  {
  }

  /** The identity of a remote actor as the cluster runtime hands it out. */
  type ActorId = nat

  /** What `getattr` finds on an in-process agent: a method it can call, or a
      plain data attribute. */
  datatype Attribute = Callable | Data

  /** An in-process agent object: its `name` attribute and its other attributes. */
  datatype LocalAgent = LocalAgent(name: string, attributes: map<string, Attribute>)

  /** `getattr(agent, f)` on an in-process agent: `name` is always a (string) data
      attribute; None stands for the AttributeError of a missing attribute. */
  function Lookup(a: LocalAgent, f: string): (r: Option<Attribute>)
    ensures f == "name" ==> r == Some(Data)
    ensures f != "name" ==> (r.Some? <==> f in a.attributes)
    ensures f != "name" && f in a.attributes ==> r == Some(a.attributes[f])
  {
    if f == "name" then Some(Data)
    else if f in a.attributes then Some(a.attributes[f])
    else None
  }

  /** The three things the agent helpers accept as "an agent". */
  datatype AgentHandle =
    | Local(agent: LocalAgent)
    | NameRef(name: string)
    | Remote(actor: ActorId)

  /** The operations of the cluster runtime and of in-process agents, taken as
      given: the code behind them is not part of this model.
      - getName(a):                  ray.get(a.get_name.remote())
      - getActor(n):                 ray.get_actor(n)
      - call(a, f, args, kwargs):    ray.get(getattr(a, f).remote(*args, **kwargs))
      - invokeLocal(x, f, args, kw): getattr(x, f)(*args, **kw) for a method x has,
                                     with the exception the method raises as Err */
  datatype Runtime = Runtime(
    getName: ActorId -> string,
    getActor: string -> ActorId,
    call: (ActorId, string, seq<Value>, map<string, Value>) -> Value,
    invokeLocal: (LocalAgent, string, seq<Value>, map<string, Value>) -> Result<Value>)

  /** get_agent_name: an Agent's name is its `name` attribute and a string names
      itself, whatever the runtime; only a remote handle asks its actor. */
  function GetAgentName(rt: Runtime, agent: AgentHandle): (r: string)
    ensures agent.Local? ==> r == agent.agent.name
    ensures agent.NameRef? ==> r == agent.name
    ensures agent.Remote? ==> r == rt.getName(agent.actor)
  {
    match agent
    case Local(a) => a.name
    case NameRef(n) => n
    case Remote(x) => rt.getName(x)
  }

  /** run_agent_func: on an in-process agent, a missing attribute raises
      AttributeError, a data attribute is not callable (TypeError), and a method
      runs with its own outcome. A string is resolved through the actor registry;
      the remote paths have no failure modelled. */
  function RunAgentFunc(rt: Runtime, agent: AgentHandle, funcName: string,
                        args: seq<Value>, kwargs: map<string, Value>): (r: Result<Value>)
    ensures agent.Local? && Lookup(agent.agent, funcName).None? ==> r == Err(AttributeError(funcName))
    ensures agent.Local? && Lookup(agent.agent, funcName) == Some(Data) ==> r == Err(TypeError)
    ensures agent.Local? && Lookup(agent.agent, funcName) == Some(Callable)
        ==> r == rt.invokeLocal(agent.agent, funcName, args, kwargs)
    ensures agent.NameRef? ==> r == Ok(rt.call(rt.getActor(agent.name), funcName, args, kwargs))
    ensures agent.Remote? ==> r == Ok(rt.call(agent.actor, funcName, args, kwargs))
  {
    match agent
    case Local(a) =>
      (match Lookup(a, funcName)
       case None => Err(AttributeError(funcName))
       case Some(Data) => Err(TypeError)
       case Some(Callable) => rt.invokeLocal(a, funcName, args, kwargs))
    case NameRef(n) => Ok(rt.call(rt.getActor(n), funcName, args, kwargs))
    case Remote(x) => Ok(rt.call(x, funcName, args, kwargs))
  }

  /** A call through a string handle is the call through the actor registered
      under that name, and a call on an in-process agent never touches the remote
      runtime; a data attribute such as `name` cannot be run. */
  lemma DispatchByKind(rt: Runtime, a: LocalAgent, n: string, funcName: string,
                       args: seq<Value>, kwargs: map<string, Value>,
                       other: Runtime)
    ensures RunAgentFunc(rt, NameRef(n), funcName, args, kwargs)
         == RunAgentFunc(rt, Remote(rt.getActor(n)), funcName, args, kwargs)
    ensures RunAgentFunc(rt, Local(a), funcName, args, kwargs)
         == RunAgentFunc(other.(invokeLocal := rt.invokeLocal), Local(a), funcName, args, kwargs)
    ensures RunAgentFunc(rt, Local(a), "name", args, kwargs) == Err(TypeError)
  {
  }
}
