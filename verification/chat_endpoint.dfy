/** The chat handler of api_v1/endpoints/health_chat.py. The conversation
    chain is an oracle from the chat model, the user's history and the
    message to the history it leaves behind and a reply or an exception. */
module ChatEndpoint {
  import opened Errors
  import opened Text
  import opened Http
  import opened ChatUtils
  import opened Dependencies
  import Schemas

  const FailureDetail: string := "Chat response generation failed. Please try again."

  /** `request.user_id or "default"`: an absent or empty id means "default". */
  function EffectiveUserId(userId: Option<string>): (u: string)
    ensures u == DefaultUserId <==> userId.None? || userId.value == "" || userId.value == DefaultUserId
    ensures userId.Some? && userId.value != "" ==> u == userId.value
  {
    match userId
    case Some(id) => if id == "" then DefaultUserId else id
    case None => DefaultUserId
  }

  /** `chat_endpoint`: fetch the chat model (an unset one raises
      `RuntimeError`, answered 500), fetch or create the user's history, run
      the chain on it and answer with the response text. The history the
      chain leaves is the user's history afterwards, whether or not the
      reply is usable. A `ChatError`, which includes every wrapped chain
      failure, becomes 400 with its message. */
  function ChatEndpoint(d: Deps, req: Schemas.ChatRequest, chain: (LlmClient, History, string) -> ChainRun): (r: (Deps, EndpointResult<Schemas.ChatResponse>))
    ensures !r.1.RaisedOther?
    ensures d.llm.None? ==> r == (d, RaisedHttp(HttpException(StatusInternalError, FailureDetail)))
    ensures d.llm.Some? ==>
      var uid := EffectiveUserId(req.userId);
      var run := chain(d.llm.value, GetConversationMemory(d, uid).1, req.message);
      && uid in r.0.conversations && r.0.conversations[uid] == run.history
      && (forall u :: u != uid ==> (u in r.0.conversations <==> u in d.conversations))
      && (forall u :: u != uid && u in d.conversations ==> r.0.conversations[u] == d.conversations[u])
      && r.0.hfClient == d.hfClient && r.0.llm == d.llm
    ensures d.llm.Some? && r.1.RaisedHttp? ==> r.1.http.statusCode == StatusBadRequest
    ensures r.1.Returned? ==> r.1.value.response != [] && HasNoOuterSpace(r.1.value.response)
  {
    match GetLlm(d)
    case Raise(e) => (d, RaisedHttp(ToHttpException(ChatError, FailureDetail, e)))
    case Ok(llm) =>
      var uid := EffectiveUserId(req.userId);
      var (d', history) := GetConversationMemory(d, uid);
      var run := chain(llm, history, req.message);
      var d'' := d'.(conversations := d'.conversations[uid := run.history]);
      assert d''.conversations == d.conversations[uid := run.history];
      match GenerateChatResponse(run.reply)
      case Ok(text) => (d'', Returned(Schemas.ChatResponse(text)))
      case Raise(e) => (d'', RaisedHttp(ToHttpException(ChatError, FailureDetail, e)))
  }

  /** With a chat model set, the chain sees the model, the user's history and
      the message, and the answer is exactly what the adapter made of its
      reply: the response text on success, 400 with the message otherwise. */
  lemma ChatAnswerFollowsAdapter(d: Deps, req: Schemas.ChatRequest, chain: (LlmClient, History, string) -> ChainRun)
    requires d.llm.Some?
    ensures var history := GetConversationMemory(d, EffectiveUserId(req.userId)).1;
            var adapted := GenerateChatResponse(chain(d.llm.value, history, req.message).reply);
            var r := ChatEndpoint(d, req, chain).1;
            && (adapted.Ok? ==> r == Returned(Schemas.ChatResponse(adapted.value)))
            && (adapted.Raise? ==> r == RaisedHttp(HttpException(StatusBadRequest, adapted.exc.message)))
  {
  }

  /** A first chat by a new user hands the chain an empty history; a later
      chat by the same user hands it what the previous run left. */
  lemma ChatThreadsHistory(d: Deps, req: Schemas.ChatRequest, chain: (LlmClient, History, string) -> ChainRun)
    requires d.llm.Some?
    ensures var uid := EffectiveUserId(req.userId);
            var d1 := ChatEndpoint(d, req, chain).0;
            && (uid !in d.conversations ==> d1.conversations[uid] == chain(d.llm.value, [], req.message).history)
            && GetConversationMemory(d1, uid).1 == chain(d.llm.value, GetConversationMemory(d, uid).1, req.message).history
  {
  }

  /** A user's history is created even when the chain then fails, and no
      other user's history is touched. */
  lemma ChatKeepsOtherUsers(d: Deps, req: Schemas.ChatRequest, chain: (LlmClient, History, string) -> ChainRun, other: string)
    requires d.llm.Some?
    requires other in d.conversations && other != EffectiveUserId(req.userId)
    ensures EffectiveUserId(req.userId) in ChatEndpoint(d, req, chain).0.conversations
    ensures other in ChatEndpoint(d, req, chain).0.conversations
    ensures ChatEndpoint(d, req, chain).0.conversations[other] == d.conversations[other]
  {
  }
}
