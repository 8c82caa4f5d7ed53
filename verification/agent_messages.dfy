/** The message envelope helpers of the agent package: each one deep-copies its
    input and edits the copy, so a caller's message or conversation is never
    changed. Values are immutable here, so that guarantee is the model's own;
    what the contracts pin down is how the copy is edited. */
module AgentMessages {
  import opened PyValues

  /** copy_message: `copy.deepcopy`, written as the structural clone it performs.
      The clone is equal to the original, at every depth. */
  function CopyMessage(v: Value): (r: Value)
    ensures r == v
  {
    match v
    case List(items) =>
      var copied := seq(|items|, i requires 0 <= i < |items| => CopyMessage(items[i]));
      assert copied == items;
      List(copied)
    case Dict(entries) =>
      var copied := map k | k in entries :: CopyMessage(entries[k]);
      assert copied.Keys == entries.Keys;
      assert forall k :: k in entries ==> copied[k] == entries[k];
      assert copied == entries;
      Dict(copied)
    case _ => v
  }

  /** The metadata dictionary a message starts from: its own when it has one, an
      empty one when the key is absent. */
  function StartMetadata(message: Message): (m: map<string, Value>)
    ensures "metadata" !in message ==> m == map[]
    ensures "metadata" in message && message["metadata"].Dict? ==> m == message["metadata"].entries
  {
    if "metadata" in message && message["metadata"].Dict? then message["metadata"].entries else map[]
  }

  /** The message has a `metadata` entry that is not a dictionary: item assignment
      on it raises TypeError. */
  predicate HasForeignMetadata(message: Message)
  {
    "metadata" in message && !message["metadata"].Dict?
  }

  /** modify_message_metadata: a copy of the message with `metadata` present and
      every keyword argument written into it; other metadata keys and other
      top-level keys are kept. */
  method ModifyMessageMetadata(message: Message, kwargs: map<string, Value>) returns (r: Result<Message>)
    // Python binds a keyword `message` to the first parameter, so it never reaches `kwargs`.
    requires "message" !in kwargs
    ensures r.Err? <==> HasForeignMetadata(message) && kwargs != map[]
    ensures r.Err? ==> r.error == TypeError
    ensures r.Ok? && HasForeignMetadata(message) ==> r.value == message
    ensures r.Ok? ==> r.value.Keys == message.Keys + {"metadata"}
    ensures r.Ok? ==> forall k :: k in message && k != "metadata" ==> r.value[k] == message[k]
    ensures r.Ok? && !HasForeignMetadata(message) ==>
      && r.value["metadata"].Dict?
      && r.value["metadata"].entries.Keys == StartMetadata(message).Keys + kwargs.Keys
      && (forall k :: k in kwargs ==> r.value["metadata"].entries[k] == kwargs[k])
      && (forall k :: k in StartMetadata(message) && k !in kwargs ==>
            r.value["metadata"].entries[k] == StartMetadata(message)[k])
  {
    var copy := CopyMessage(Dict(message)).entries;
    if "metadata" !in copy {
      copy := copy["metadata" := Dict(map[])];
    }
    var pending := kwargs;
    while pending != map[]
      invariant pending.Keys <= kwargs.Keys
      invariant copy.Keys == message.Keys + {"metadata"}
      invariant forall k :: k in message && k != "metadata" ==> copy[k] == message[k]
      invariant HasForeignMetadata(message) ==> pending == kwargs && copy == message
      invariant !HasForeignMetadata(message) ==>
        && copy["metadata"].Dict?
        && copy["metadata"].entries.Keys == StartMetadata(message).Keys + (kwargs.Keys - pending.Keys)
        && (forall k :: k in kwargs && k !in pending ==> copy["metadata"].entries[k] == kwargs[k])
        && (forall k :: k in StartMetadata(message) && k !in kwargs ==>
              copy["metadata"].entries[k] == StartMetadata(message)[k])
      decreases pending.Keys
    {
      var key :| key in pending;
      if !copy["metadata"].Dict? {
        return Err(TypeError);
      }
      copy := copy["metadata" := Dict(copy["metadata"].entries[key := kwargs[key]])];
      pending := pending - {key};
    }
    return Ok(copy);
  }

  /** modify_message_content: a copy of the message whose `content` is the given
      text; every other key, metadata included, is kept. */
  function ModifyMessageContent(message: Message, content: string): (r: Message)
    ensures r.Keys == message.Keys + {"content"}
    ensures r["content"] == Str(content)
    ensures forall k :: k in message && k != "content" ==> r[k] == message[k]
  {
    var copy := CopyMessage(Dict(message)).entries;
    copy["content" := Str(content)]
  }

  /** modify_last_message: a copy of the conversation whose last message is
      replaced; on an empty conversation the assignment to index -1 raises
      IndexError. */
  function ModifyLastMessage(messages: seq<Message>, message: Message): (r: Result<seq<Message>>)
    ensures r.Err? <==> messages == []
    ensures r.Err? ==> r.error == IndexError
    ensures r.Ok? ==> |r.value| == |messages| && r.value[|messages| - 1] == message
    ensures r.Ok? ==> forall i :: 0 <= i < |messages| - 1 ==> r.value[i] == messages[i]
  {
    var copy := seq(|messages|, i requires 0 <= i < |messages| => CopyMessage(Dict(messages[i])).entries);
    if |copy| == 0 then Err(IndexError)
    else Ok(copy[|copy| - 1 := message])
  }

  /** Replacing the last message twice with the same message gives the result of
      replacing it once. */
  lemma ModifyLastMessageIdempotent(messages: seq<Message>, message: Message)
    requires messages != []
    ensures ModifyLastMessage(messages, message).Ok?
    ensures ModifyLastMessage(ModifyLastMessage(messages, message).value, message)
         == ModifyLastMessage(messages, message)
  {
    var once := ModifyLastMessage(messages, message).value;
    var twice := ModifyLastMessage(once, message).value;
    assert |twice| == |once|;
    forall i | 0 <= i < |once|
      ensures twice[i] == once[i]
    {
    }
    assert twice == once;
  }
}
