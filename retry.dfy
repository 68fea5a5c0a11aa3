/**
 * The retry wrapper of the fengli bot (`_reply_text`): transcode the session,
 * post the query, and on an exception sleep and try again, at most twice.
 */
module Retry {
  import opened Wrappers
  import opened Transcoder
  import opened Remote

  /** Retries allowed after the first attempt. */
  const MaxRetries: nat := 2
  /** Seconds slept before each retry. */
  const SleepSeconds: nat := 3
  /** The placeholder token count reported on success, for both totals. */
  const PlaceholderTokens: int := 100

  /** The success payload `{total_tokens, completion_tokens, content}`. */
  datatype ReplyContent = ReplyContent(totalTokens: int, completionTokens: int, content: Option<string>)

  /**
   * The pair `(result, err)` returned by the wrapper, with a trace of its effects:
   * how many attempts ran, how many sleeps of `SleepSeconds` it made, and the bodies it posted.
   */
  datatype RetryOutcome = RetryOutcome(
    result: Option<ReplyContent>,
    err: Option<string>,
    attempts: nat,
    sleeps: nat,
    requests: seq<RequestBody>)

  /** `repr(e)` of the exception a transcoder failure raises. */
  function ExceptionRepr(e: TranscodeError): string {
    match e
    case PopFromEmptyList => "IndexError('pop from empty list')"
    case NoUserMessage => "Exception('no user message')"
  }

  /** The error text returned once the retries are used up. */
  function ExhaustedMessage(e: TranscodeError): string {
    "[FENGLI] Exception: " + ExceptionRepr(e) + " 超过最大重试次数"
  }

  /**
   * `_reply_text(session_id, session, retryCount)` with the session's messages, the
   * configured endpoint and the network as `post`. `send_post_request` catches its own
   * exceptions, so only the transcoder can make an attempt raise.
   */
  function ReplyText(messages: seq<Message>, url: string, post: (string, RequestBody) -> HttpOutcome, retryCount: nat): (r: RetryOutcome)
    ensures r.result.Some? != r.err.Some?
    ensures 1 <= r.attempts <= (if retryCount <= MaxRetries then MaxRetries + 1 - retryCount else 1)
    ensures r.sleeps == r.attempts - 1
    ensures r.result.Some? ==>
      r.result.value.totalTokens == PlaceholderTokens && r.result.value.completionTokens == PlaceholderTokens
    ensures |r.requests| == (if r.result.Some? then 1 else 0)
    decreases if retryCount < MaxRetries then MaxRetries - retryCount else 0
  {
    match ConvertMessagesFormat(messages)
    case Success(converted) =>
      var body := BuildRequestBody(converted.query);
      var answer := SendPostRequest(post(url, body));
      RetryOutcome(Some(ReplyContent(PlaceholderTokens, PlaceholderTokens, answer)), None, 1, 0, [body])
    case Failure(e) =>
      if retryCount < MaxRetries then
        var later := ReplyText(messages, url, post, retryCount + 1);
        later.(attempts := later.attempts + 1, sleeps := later.sleeps + 1)
      else
        RetryOutcome(None, Some(ExhaustedMessage(e)), 1, 0, [])
  }

  /**
   * When the transcript converts, the first attempt succeeds: exactly one request is posted,
   * carrying the query and the constant bot and user ids, and its answer is the content.
   */
  lemma ReplyTextSucceeds(messages: seq<Message>, url: string, post: (string, RequestBody) -> HttpOutcome, retryCount: nat)
    requires ConvertMessagesFormat(messages).Success?
    ensures var query := ConvertMessagesFormat(messages).value.query;
      var body := RequestBody(BotId, UserId, query);
      var r := ReplyText(messages, url, post, retryCount);
      && r.requests == [body]
      && r.attempts == 1 && r.sleeps == 0 && r.err == None
      && r.result == Some(ReplyContent(PlaceholderTokens, PlaceholderTokens, SendPostRequest(post(url, body))))
  {
  }

  /**
   * When the transcript does not convert, every attempt fails the same way: the wrapper
   * uses up all its retries, posts nothing and returns the error of the last attempt.
   */
  lemma {:induction false} ReplyTextExhausts(messages: seq<Message>, url: string, post: (string, RequestBody) -> HttpOutcome, retryCount: nat)
    requires ConvertMessagesFormat(messages).Failure?
    requires retryCount <= MaxRetries
    ensures var r := ReplyText(messages, url, post, retryCount);
      && r.result == None
      && r.err == Some(ExhaustedMessage(ConvertMessagesFormat(messages).error))
      && r.attempts == MaxRetries + 1 - retryCount
      && r.sleeps == MaxRetries - retryCount
      && r.requests == []
    decreases MaxRetries - retryCount
  {
    if retryCount < MaxRetries {
      ReplyTextExhausts(messages, url, post, retryCount + 1);
    }
  }

  /**
   * From the first call: the wrapper errs exactly when the transcript does not convert,
   * and then after three attempts and two sleeps; otherwise after one attempt and no sleep.
   */
  lemma ReplyTextFromStart(messages: seq<Message>, url: string, post: (string, RequestBody) -> HttpOutcome)
    ensures var r := ReplyText(messages, url, post, 0);
      && (r.err.Some? <==> ConvertMessagesFormat(messages).Failure?)
      && (r.err.Some? ==> r.attempts == 3 && r.sleeps == 2 && r.sleeps * SleepSeconds == 6)
      && (r.result.Some? ==> r.attempts == 1 && r.sleeps == 0)
  {
    if ConvertMessagesFormat(messages).Failure? {
      ReplyTextExhausts(messages, url, post, 0);
    }
  }

  /**
   * The history never reaches the endpoint: two transcripts with the same query lead to
   * the same requests and the same outcome, whatever their histories.
   */
  lemma HistoryNotSent(a: seq<Message>, b: seq<Message>, url: string, post: (string, RequestBody) -> HttpOutcome)
    requires ConvertMessagesFormat(a).Success? && ConvertMessagesFormat(b).Success?
    requires ConvertMessagesFormat(a).value.query == ConvertMessagesFormat(b).value.query
    ensures ReplyText(a, url, post, 0) == ReplyText(b, url, post, 0)
  {
  }

  /**
   * A failed HTTP exchange is not retried: the client turns it into a `None` answer,
   * so the wrapper succeeds after one attempt with no content.
   */
  lemma HttpFailureNotRetried(messages: seq<Message>, url: string, post: (string, RequestBody) -> HttpOutcome)
    requires ConvertMessagesFormat(messages).Success?
    requires var body := BuildRequestBody(ConvertMessagesFormat(messages).value.query);
      post(url, body).TransportFailure? || (post(url, body).Response? && RaisesForStatus(post(url, body).status))
    ensures var r := ReplyText(messages, url, post, 0);
      r.attempts == 1 && r.err == None && r.result == Some(ReplyContent(PlaceholderTokens, PlaceholderTokens, None))
  {
  }
}
