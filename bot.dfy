/**
 * The fengli bot's entry point `reply`, over an abstract session manager that
 * keeps one transcript per session id.
 */
module Bot {
  import opened Wrappers
  import opened Transcoder
  import opened Remote
  import opened Retry

  /** The apology shown to the user whenever the retry wrapper reports an error. */
  const Apology: string := "我暂时遇到了一些问题，请您稍后重试~"
  /** The session model used when the `model` configuration key is absent or empty. */
  const DefaultModel: string := "fengli"

  /** The type of an incoming context: text, or another type given by its printed name. */
  datatype ContextType = TextContext | OtherContext(name: string)

  /** The incoming context: its type and its `session_id`. */
  datatype Context = Context(kind: ContextType, sessionId: string)

  datatype ReplyType = Text | Error

  /** The reply handed back to the host; its content may be `None` when the endpoint gave no answer. */
  datatype BotReply = BotReply(replyType: ReplyType, content: Option<string>)

  /** The two configuration keys the bot reads. */
  datatype Config = Config(model: Option<string>, fengliApi: Option<string>)

  /** One call of `session_reply`: the content, the session id and the token count passed. */
  datatype ReplyCall = ReplyCall(content: Option<string>, sessionId: string, totalTokens: int)

  /** The error text for a context type the bot does not handle. */
  function UnsupportedMessage(typeName: string): string {
    "Bot不支持处理" + typeName + "类型的消息"
  }

  /** `conf().get("model") or "fengli"`: an absent or empty setting falls back to the default. */
  function ModelName(configured: Option<string>): string {
    match configured
    case Some(m) => if m == "" then DefaultModel else m
    case None => DefaultModel
  }

  /**
   * The host's session manager, seen as one transcript per session id. A session that
   * does not exist yet starts from `initial`.
   */
  class SessionManager {
    const model: string
    const initial: seq<Message>
    var sessions: map<string, seq<Message>>
    var replyCalls: seq<ReplyCall>

    /** The transcript of a session, or the starting transcript of a new one. */
    function Transcript(sessionId: string): seq<Message>
      reads this
    {
      if sessionId in sessions then sessions[sessionId] else initial
    }

    constructor (model: string, initial: seq<Message>)
      ensures this.model == model && this.initial == initial
      ensures sessions == map[] && replyCalls == []
    {
      this.model := model;
      this.initial := initial;
      sessions := map[];
      replyCalls := [];
    }

    /** `session_query`: append the query as a user message and hand back the transcript. */
    method SessionQuery(query: string, sessionId: string) returns (messages: seq<Message>)
      modifies this
      ensures messages == old(Transcript(sessionId)) + [Message(User, Some(query))]
      ensures sessions == old(sessions)[sessionId := messages]
      ensures replyCalls == old(replyCalls)
    {
      messages := Transcript(sessionId) + [Message(User, Some(query))];
      sessions := sessions[sessionId := messages];
    }

    /** `session_reply`: append the answer as an assistant message and record the call. */
    method SessionReply(content: Option<string>, sessionId: string, totalTokens: int)
      modifies this
      ensures sessions == old(sessions)[sessionId := old(Transcript(sessionId)) + [Message(Assistant, content)]]
      ensures replyCalls == old(replyCalls) + [ReplyCall(content, sessionId, totalTokens)]
    {
      sessions := sessions[sessionId := Transcript(sessionId) + [Message(Assistant, content)]];
      replyCalls := replyCalls + [ReplyCall(content, sessionId, totalTokens)];
    }
  }

  /** The bot: its session manager, its endpoint, and the requests and sleeps it has made. */
  class FengliBot {
    const sessions: SessionManager
    const url: string
    var requests: seq<RequestBody>
    var sleeps: nat

    constructor (config: Config, initial: seq<Message>)
      ensures fresh(sessions)
      ensures sessions.model == ModelName(config.model) && sessions.model != ""
      ensures config.model.Some? && config.model.value != "" ==> sessions.model == config.model.value
      ensures sessions.initial == initial && sessions.sessions == map[] && sessions.replyCalls == []
      ensures url == Endpoint(config.fengliApi)
      ensures requests == [] && sleeps == 0
    {
      sessions := new SessionManager(ModelName(config.model), initial);
      url := Endpoint(config.fengliApi);
      requests := [];
      sleeps := 0;
    }

    /**
     * `reply(query, context)`. A non-text context gets an error reply and changes nothing.
     * A text context appends the query to its session and runs the retry wrapper: an error
     * gives the apology and no `session_reply`; a result is appended to the session by
     * exactly one `session_reply` and returned as a text reply. Since the transcript then
     * ends in the new user message, the error case happens exactly when the query is empty.
     */
    method Reply(query: string, context: Context, post: (string, RequestBody) -> HttpOutcome) returns (r: BotReply)
      modifies this, sessions
      ensures context.kind.OtherContext? ==>
        && r == BotReply(Error, Some(UnsupportedMessage(context.kind.name)))
        && requests == old(requests) && sleeps == old(sleeps)
        && sessions.sessions == old(sessions.sessions) && sessions.replyCalls == old(sessions.replyCalls)
      ensures context.kind.TextContext? ==>
        var id := context.sessionId;
        var transcript := old(sessions.Transcript(id)) + [Message(User, Some(query))];
        var out := ReplyText(transcript, url, post, 0);
        && requests == old(requests) + out.requests
        && sleeps == old(sleeps) + out.sleeps
        && (r.replyType == Error <==> query == "")
        && (query == "" ==> requests == old(requests) && sleeps == old(sleeps) + 2)
        && (query != "" ==> requests == old(requests) + [RequestBody(BotId, UserId, Some(query))] && sleeps == old(sleeps))
        && (if out.err.Some? then
              && r == BotReply(Error, Some(Apology))
              && sessions.replyCalls == old(sessions.replyCalls)
              && sessions.sessions == old(sessions.sessions)[id := transcript]
            else
              var content := out.result.value.content;
              && r == BotReply(Text, content)
              && sessions.replyCalls == old(sessions.replyCalls) + [ReplyCall(content, id, PlaceholderTokens)]
              && sessions.sessions == old(sessions.sessions)[id := transcript + [Message(Assistant, content)]])
    {
      if context.kind.TextContext? {
        var sessionId := context.sessionId;
        var messages := sessions.SessionQuery(query, sessionId);
        var out := ReplyText(messages, url, post, 0);
        requests := requests + out.requests;
        sleeps := sleeps + out.sleeps;
        ghost var prior := messages[..|messages| - 1];
        assert messages == prior + [Message(User, Some(query))];
        ReplyTextFromStart(messages, url, post);
        if query == "" {
          EndsWithEmptyUserMessage(prior);
        } else {
          EndsWithUserMessage(prior, Some(query));
        }
        if out.err.Some? {
          return BotReply(Error, Some(Apology));
        }
        var replyContent := out.result.value;
        sessions.SessionReply(replyContent.content, sessionId, replyContent.totalTokens);
        return BotReply(Text, replyContent.content);
      } else {
        return BotReply(Error, Some(UnsupportedMessage(context.kind.name)));
      }
    }
  }
}
