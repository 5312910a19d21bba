/** The chat adapter of utils/chat_utils.py: extraction and wrapping of the
    conversation chain's reply, and the two helpers over a conversation
    memory. Building and invoking the LangChain conversation chain is an
    oracle handing back a reply or an exception. */
module ChatUtils {
  import opened Errors
  import opened Text
  import opened PyValues

  /** One message of a conversation memory: its LangChain type ("human",
      "ai", ...) and its text. */
  datatype Message = Message(msgType: string, content: string)

  /** A conversation memory: its messages, oldest first. */
  type History = seq<Message>

  /** An entry of `get_conversation_history`'s result. */
  datatype RoleContent = RoleContent(role: string, content: string)

  /** What `chain.ainvoke` may return: a mapping, or any other object known
      by its `str()` rendering. */
  datatype ChainReply = ChainDict(fields: map<string, PyValue>) | ChainOther(repr: string)

  /** One run of the conversation chain: the history as the chain leaves it
      (the chain records the turn in the memory object it is handed) and
      what `chain.ainvoke` returned or raised. */
  datatype ChainRun = ChainRun(history: History, reply: Result<ChainReply>)

  const EmptyResponseMessage: string := "Generated response is empty"
  const ChatFailedPrefix: string := "Failed to generate response: "

  /** The text candidate: `response.get("response", "")` for a mapping,
      `str(response)` otherwise. */
  function ReplyText(reply: ChainReply): PyValue {
    match reply
    case ChainDict(fields) => DictGet(fields, "response", PyStr(""))
    case ChainOther(repr) => PyStr(repr)
  }

  /** `generate_chat_response` given what the chain produced: a non-blank
      candidate is returned stripped; every failure, the chain's own ones
      included, is a `ChatError`, an existing one unchanged and any other
      re-raised with the prefix "Failed to generate response: ". */
  function GenerateChatResponse(reply: Result<ChainReply>): (r: Result<string>)
    ensures r.Ok? <==> reply.Ok? && ReplyText(reply.value).PyStr? && !IsBlank(ReplyText(reply.value).s)
    ensures r.Ok? ==> r.value == Strip(ReplyText(reply.value).s) && r.value != [] && HasNoOuterSpace(r.value)
    ensures r.Raise? ==> r.exc.kind == ChatError
    ensures reply.Raise? ==> r == Raise(WrapAs(ChatError, ChatFailedPrefix, reply.exc))
    ensures reply.Ok? && !Truthy(ReplyText(reply.value)) ==> r == Raise(Exc(ChatError, EmptyResponseMessage))
  {
    match reply
    case Raise(e) => Raise(WrapAs(ChatError, ChatFailedPrefix, e))
    case Ok(response) =>
      match StripReplyText(ReplyText(response), Exc(ChatError, EmptyResponseMessage))
      case Raise(e) => Raise(WrapAs(ChatError, ChatFailedPrefix, e))
      case Ok(text) => Ok(text)
  }

  /** A mapping without a "response" entry counts as an empty reply, and a
      mapping holding a string agrees with the bare string. */
  lemma ChainReplyShapes(s: string)
    ensures GenerateChatResponse(Ok(ChainDict(map[]))) == Raise(Exc(ChatError, EmptyResponseMessage))
    ensures GenerateChatResponse(Ok(ChainDict(map["response" := PyStr(s)]))) == GenerateChatResponse(Ok(ChainOther(s)))
  {
    assert ReplyText(ChainDict(map[])) == PyStr("");
    assert ReplyText(ChainDict(map["response" := PyStr(s)])) == PyStr(s) == ReplyText(ChainOther(s));
  }

  /** `memory.clear()`. */
  function ClearConversationMemory(h: History): (r: History)
    ensures |r| == 0
  {
    []
  }

  /** `get_conversation_history` given what loading the memory produced: each
      message becomes `{role: type, content: content}` in order; a failure to
      load yields the empty list. */
  function GetConversationHistory(loaded: Result<History>): (r: seq<RoleContent>)
    ensures loaded.Raise? ==> r == []
    ensures loaded.Ok? ==> |r| == |loaded.value|
    ensures loaded.Ok? ==> forall i :: 0 <= i < |r| ==> r[i] == RoleContent(loaded.value[i].msgType, loaded.value[i].content)
  {
    match loaded
    case Raise(_) => []
    case Ok(messages) => seq(|messages|, i requires 0 <= i < |messages| => RoleContent(messages[i].msgType, messages[i].content))
  }

  /** The inverse reading: a role/content list back to messages. */
  function FromRoleContent(entries: seq<RoleContent>): (h: History)
    ensures |h| == |entries|
  {
    seq(|entries|, i requires 0 <= i < |entries| => Message(entries[i].role, entries[i].content))
  }

  /** The history listing loses nothing: reading it back gives the messages. */
  lemma HistoryRoundTrip(h: History)
    ensures FromRoleContent(GetConversationHistory(Ok(h))) == h
  {
  }

  /** After clearing, the history lists nothing. */
  lemma ClearedHistoryIsEmpty(h: History)
    ensures GetConversationHistory(Ok(ClearConversationMemory(h))) == []
  {
  }
}
