# fengli bot adapter, modelled in Dafny

This project models the fengli chat backend of a WeChat bot framework
(`bot/fengli/fengli_bot.py`). The bot receives a user's query and adds it to
that user's session. It converts the session transcript into a query plus a
tagged chat history, posts the query to a remote chat endpoint, retries a
failed attempt up to twice with a sleep in between, and then maps the outcome
to a text or error reply. A successful answer is also appended to the
session.

Modules, one per component of the source file:

- `Wrappers` (`wrappers.dfy`): `Option` (with `None` standing for Python's
  `None`) and `Result`. `Result` models an operation that returns a value or
  raises.
- `Transcoder` (`transcoder.dfy`): `_convert_messages_format`. It is written
  twice. `ConvertMessagesFormat` is the specification function.
  `ConvertMessages` is the source's loop, with `append` and `pop`, proved equal
  to it. Lemmas about both rest on the filter `Dialogue`.
- `Remote` (`remote.dfy`): the request body and `send_post_request` after
  the POST. The HTTP exchange is an `HttpOutcome` value.
- `Retry` (`retry.dfy`): `_reply_text`, a recursive function over
  `retryCount`. Its result also records how many attempts ran, how many
  sleeps happened and which bodies were posted.
- `Bot` (`bot.dfy`): the classes `SessionManager` and `FengliBot`.
  `SessionManager` is the host's session store seen as one transcript per
  session id. `FengliBot.Reply` models `reply`.

Behaviour the model makes explicit:

- Only a transcoder failure makes an attempt fail. `send_post_request`
  catches every exception itself, so a transport failure or an HTTP error
  status is not retried. The bot then returns a text reply whose content is
  `None`, after one attempt (`HttpFailureNotRetried`).
- When the response has no `message` key, `data['message']` raises before the
  `data.get` fallback is reached. The fallback text `[fengli-answer]请求失败`
  is never produced by the client (`FallbackUnreachable`).
- The check on the popped entry looks at the last user or assistant message,
  not at the last message. A trailing system or unknown-role message is
  ignored (`TrailingNonDialogueIgnored`). A `None` content passes the check
  because only `''` is rejected.
- `reply` always appends a user message before converting. So the retry
  wrapper errs exactly when the query is the empty string. In that case it
  makes three attempts and two sleeps and posts nothing (`FengliBot.Reply`).
- The computed history is never posted (`HistoryNotSent`).

## Model

| member | source | states |
|---|---|---|
| `Transcoder.Dialogue` | bot/fengli/fengli_bot.py:90-99 | the kept messages are no more than the input and all are user or assistant messages |
| `Transcoder.DialogueAppend` | bot/fengli/fengli_bot.py:90-99 | keeping messages distributes over concatenation, so kept messages stay in their original relative order |
| `Transcoder.DialogueMembers` | bot/fengli/fengli_bot.py:91-98 | every kept message is from the input, and every user or assistant message of the input is kept |
| `Transcoder.DialogueEmptyIff` | bot/fengli/fengli_bot.py:89-99 | nothing is kept exactly when the input has no user or assistant message |
| `Transcoder.ConvertMessages` | bot/fengli/fengli_bot.py:88-106 | the loop that appends tagged entries and then pops and checks the last one returns exactly the specified conversion |
| `Transcoder.ConvertFailsIff` | bot/fengli/fengli_bot.py:100-102 | conversion fails iff there is no kept message, or the last kept one is an assistant message or has empty-string content; it fails at `pop` iff the input has no user or assistant message |
| `Transcoder.ConvertSuccess` | bot/fengli/fengli_bot.py:92-106 | on success the query is the last kept message's content, that message is a user message, and the history is the earlier kept messages with content copied, `content_type` "text", and `type` "answer" on exactly the assistant entries |
| `Transcoder.EndsWithUserMessage` | bot/fengli/fengli_bot.py:89-106 | a transcript ending in a user message whose content is not `''` gives that content as the query and the tagged rest of the transcript as the history |
| `Transcoder.EndsWithEmptyUserMessage` | bot/fengli/fengli_bot.py:101-102 | a transcript ending in a user message with content `''` fails with "no user message" |
| `Transcoder.EndsWithAssistantMessage` | bot/fengli/fengli_bot.py:95-102 | a transcript ending in an assistant message fails with "no user message" |
| `Transcoder.TrailingNonDialogueIgnored` | bot/fengli/fengli_bot.py:98-99 | appending a system or unknown-role message does not change the conversion |
| `Remote.SendPostRequest` | bot/fengli/fengli_bot.py:53-63 | an answer comes back iff the exchange gave a non-error status and a JSON object with a non-null `message`, and then it is that value; every other case gives `None` and nothing is raised |
| `Remote.FallbackUnreachable` | bot/fengli/fengli_bot.py:58-59 | the fallback answer is returned only when the server itself sent it as `message` |
| `Retry.ReplyText` | bot/fengli/fengli_bot.py:65-85 | exactly one of result and error is set; at most 3 attempts from `retry_count` 0, with one sleep per retry; a result carries 100 for both token counts; exactly one request is posted on success and none on error |
| `Retry.ReplyTextSucceeds` | bot/fengli/fengli_bot.py:66-78 | if the transcript converts, the first attempt posts `{bot_id: 1, user_id: "wudongfeng", message: query}` once, and the content is the client's answer to that post |
| `Retry.ReplyTextExhausts` | bot/fengli/fengli_bot.py:79-85 | if the transcript does not convert, every remaining retry is used: `(None, err)` with the exhausted-retries message naming the exception, no request posted |
| `Retry.ReplyTextFromStart` | bot/fengli/fengli_bot.py:65-85 | from the first call, an error comes back iff the transcript does not convert, and then after 3 attempts and 2 sleeps of 3 seconds; a result comes after 1 attempt |
| `Retry.HistoryNotSent` | bot/fengli/fengli_bot.py:67-73 | two transcripts with the same query give the same outcome and post the same body, whatever their histories |
| `Retry.HttpFailureNotRetried` | bot/fengli/fengli_bot.py:73-78 | a transport failure or error status on the post is not retried: one attempt, a result with `None` content |
| `Bot.SessionManager.constructor` | bot/fengli/fengli_bot.py:18 | a new session manager holds no sessions and has recorded no replies |
| `Bot.SessionManager.SessionQuery` | bot/fengli/fengli_bot.py:26 | the query is appended to the session as a user message and the new transcript is returned; nothing else changes |
| `Bot.SessionManager.SessionReply` | bot/fengli/fengli_bot.py:40 | the answer is appended to the session as an assistant message and the call is recorded |
| `Bot.FengliBot.constructor` | bot/fengli/fengli_bot.py:16-18 | the session model is the configured one, or "fengli" when absent or empty; the endpoint is the configured one or the default |
| `Bot.FengliBot.Reply` | bot/fengli/fengli_bot.py:20-45 | a non-text context gives an "unsupported type" error and changes nothing. A text context appends the query and runs the retry wrapper: on error the apology is returned and no reply is recorded; otherwise `session_reply` is called exactly once with the content and 100 tokens, and a text reply with that content is returned. The reply is an error iff the query is empty |

## Left out

- The HTTP call itself (`requests.post`, `raise_for_status`, `response.json()`) is network I/O. The bot receives it as a parameter `post` from endpoint and body to an `HttpOutcome`. Only the handling of that outcome is modelled.
- `time.sleep(3)` is modelled by counting sleeps. No real time passes.
- Logging is not modelled: its calls have no effect on the results.
- Configuration lookups are modelled as a `Config` value passed to the constructor. They are not process-wide state.
- `SessionManager` and `ChatGPTSession` internals are not part of this model. That covers session expiry, the system prompt of a new session and token-based trimming of old messages. A session is a transcript, and a new session starts from the constructor's `initial` transcript.
- JSON values other than strings and `null` under `message` are not modelled.
- Session messages that are not dictionaries, or that lack a `role` key, are not modelled beyond the `Unknown` role.
- `reply` with `context=None` is not modelled. Python raises an `AttributeError` there, and the host always passes a context.
- A context type appears in the error text through its printed name. The host supplies that name.
