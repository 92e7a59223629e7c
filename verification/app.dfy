/**
 * The browser client's chat state (frontend/src/App.tsx).
 *
 * The component's state cells (`messages`, `inputValue`, `isTyping`, `sessionId`) and the
 * `chat_sessionId` local-storage slot are the fields of `ChatClient`. `fetch` is an oracle
 * from the request to its outcome; `Date.now()` ids and ISO timestamps are parameters.
 * The list updaters passed to `setMessages` are pure functions.
 */
module App {
  import opened Options

  const UserSender: string := "user"
  const AiSender: string := "ai"
  const GreetingText: string := "Hello! I am Support Agent. How can I help you today?"
  const ConnectionErrorText: string :=
    "Sorry, I'm having trouble connecting to the server. Sorry for the inconvenience."

  datatype Feedback = Up | Down

  /** One chat bubble. `content` is `None` when the server's body had no `reply` field. */
  datatype UiMessage = UiMessage(id: string, sender: string, content: Option<string>,
                                 timestamp: string, feedback: Option<Feedback>)

  /** A row of `GET /chat/history/:sessionId` as the client receives it. */
  datatype HistoryEntry = HistoryEntry(id: nat, sender: string, content: string, createdAt: string)

  /** The history fetch: a JSON array of rows, or anything that makes `data.map` throw (network
      failure, a non-JSON body, or the 500 body, which is an object). */
  datatype HistoryFetch = Fetched(rows: seq<HistoryEntry>) | FetchFailed

  /** The body of `POST /chat/message`. */
  datatype SendRequest = SendRequest(message: string, sessionId: Option<string>)

  /** The parsed JSON body of the reply; fields absent from a 400/500 body are `None`. */
  datatype ReplyBody = ReplyBody(reply: Option<string>, sessionId: Option<string>)

  /** The message fetch: a parsed body whatever the HTTP status, or a thrown error. */
  datatype SendFetch = Responded(body: ReplyBody) | SendFailed

  /** A JavaScript string value used as a condition: `null`/`undefined` and `""` are falsy. */
  predicate Truthy(s: Option<string>) {
    s.Some? && s.value != ""
  }

  /** The characters `String.prototype.trim` removes: ECMAScript WhiteSpace and LineTerminator. */
  predicate IsJsWhitespace(c: char) {
    || c == '\t' || c == '\n' || c == '\U{000B}' || c == '\U{000C}' || c == '\r' || c == ' '
    || c == '\U{00A0}' || c == '\U{1680}' || ('\U{2000}' <= c <= '\U{200A}')
    || c == '\U{2028}' || c == '\U{2029}' || c == '\U{202F}' || c == '\U{205F}'
    || c == '\U{3000}' || c == '\U{FEFF}'
  }

  /** `text.trim() === ''`. */
  predicate IsBlank(text: string) {
    forall i :: 0 <= i < |text| ==> IsJsWhitespace(text[i])
  }

  /** The canned greeting shown when there is nothing else to show; it is never persisted. */
  function Greeting(now: string): UiMessage {
    UiMessage("1", AiSender, Some(GreetingText), now, None)
  }

  function DigitChar(d: nat): (c: char)
    requires d < 10
    ensures '0' <= c <= '9' && c as int - '0' as int == d
  {
    ('0' as int + d) as char
  }

  predicate AllDigits(s: string) {
    forall i :: 0 <= i < |s| ==> '0' <= s[i] <= '9'
  }

  /** The number a string of decimal digits denotes, most significant digit first. */
  function DigitsValue(s: string): nat
    requires AllDigits(s)
  {
    if s == [] then 0 else DigitsValue(s[..|s| - 1]) * 10 + (s[|s| - 1] as int - '0' as int)
  }

  /** `Number.prototype.toString()` for a non-negative integer id: the decimal digits that denote
      it, with no leading zero. */
  function NatToString(n: nat): (s: string)
    ensures 1 <= |s| && AllDigits(s)
    ensures DigitsValue(s) == n
    ensures s[0] == '0' <==> n == 0
  {
    if n < 10 then [DigitChar(n)]
    else
      var s := NatToString(n / 10) + [DigitChar(n % 10)];
      assert s[..|s| - 1] == NatToString(n / 10);
      s
  }

  /** Distinct numeric ids stay distinct once stringified. */
  lemma NatToStringInjective(a: nat, b: nat)
    requires NatToString(a) == NatToString(b)
    ensures a == b
  {
    assert a == DigitsValue(NatToString(a)) == DigitsValue(NatToString(b)) == b;
  }

  /** One history row as a bubble: `{ id: msg.id.toString(), sender, content, timestamp: msg.created_at }`. */
  function FromEntry(e: HistoryEntry): (m: UiMessage)
    ensures AllDigits(m.id) && DigitsValue(m.id) == e.id
    ensures m.sender == e.sender && m.content == Some(e.content) && m.timestamp == e.createdAt
    ensures m.feedback == None
  {
    UiMessage(NatToString(e.id), e.sender, Some(e.content), e.createdAt, None)
  }

  /** `data.map(...)` in `loadHistory`: one bubble per row, same order, id stringified. */
  function ToUiMessages(rows: seq<HistoryEntry>): (msgs: seq<UiMessage>)
    ensures |msgs| == |rows|
    ensures forall i :: 0 <= i < |rows| ==>
              && msgs[i].id == NatToString(rows[i].id)
              && msgs[i].sender == rows[i].sender
              && msgs[i].content == Some(rows[i].content)
              && msgs[i].timestamp == rows[i].createdAt
              && msgs[i].feedback == None
  {
    if rows == [] then [] else ToUiMessages(rows[..|rows| - 1]) + [FromEntry(rows[|rows| - 1])]
  }

  /** The list `loadHistory` installs: the greeting alone for an empty history, else the rows. */
  function LoadedMessages(rows: seq<HistoryEntry>, now: string): (msgs: seq<UiMessage>)
    ensures rows == [] ==> msgs == [Greeting(now)]
    ensures rows != [] ==> |msgs| == |rows| && forall i :: 0 <= i < |rows| ==> msgs[i] == FromEntry(rows[i])
  {
    if rows == [] then [Greeting(now)] else ToUiMessages(rows)
  }

  /** The updater of `handleFeedback`: set `feedback` on every bubble whose id is `id`. */
  function SetFeedback(msgs: seq<UiMessage>, id: string, fb: Feedback): (r: seq<UiMessage>)
    ensures |r| == |msgs|
    ensures forall i :: 0 <= i < |msgs| ==>
              && r[i].id == msgs[i].id && r[i].sender == msgs[i].sender
              && r[i].content == msgs[i].content && r[i].timestamp == msgs[i].timestamp
              && r[i].feedback == (if msgs[i].id == id then Some(fb) else msgs[i].feedback)
  {
    if msgs == [] then []
    else
      var last := msgs[|msgs| - 1];
      SetFeedback(msgs[..|msgs| - 1], id, fb) + [if last.id == id then last.(feedback := Some(fb)) else last]
  }

  /** A second click replaces the first: only the latest feedback for an id is kept. */
  lemma FeedbackLastWins(msgs: seq<UiMessage>, id: string, first: Feedback, second: Feedback)
    ensures SetFeedback(SetFeedback(msgs, id, first), id, second) == SetFeedback(msgs, id, second)
  {
  }

  /** Repeating the same feedback changes nothing. */
  lemma FeedbackIdempotent(msgs: seq<UiMessage>, id: string, fb: Feedback)
    ensures SetFeedback(SetFeedback(msgs, id, fb), id, fb) == SetFeedback(msgs, id, fb)
  {
  }

  /** Rows with distinct ids give bubbles with distinct ids, so feedback on a loaded bubble
      reaches that bubble only. */
  lemma LoadedFeedbackTouchesOne(rows: seq<HistoryEntry>, k: nat, fb: Feedback)
    requires forall i, j :: 0 <= i < j < |rows| ==> rows[i].id != rows[j].id
    requires k < |rows|
    ensures var msgs := ToUiMessages(rows);
            var r := SetFeedback(msgs, msgs[k].id, fb);
            && r[k].feedback == Some(fb)
            && forall i :: 0 <= i < |rows| && i != k ==> r[i] == msgs[i]
  {
    var msgs := ToUiMessages(rows);
    var r := SetFeedback(msgs, msgs[k].id, fb);
    forall i | 0 <= i < |rows| && i != k ensures r[i] == msgs[i] {
      if msgs[i].id == msgs[k].id {
        assert false;
      }
    }
  }

  /** The AI bubble appended once the send's fetch settles: the body's `reply` as-is, or the
      connection-error text when the fetch or the JSON parse throws. */
  function ReplyBubble(outcome: SendFetch, aiId: string, now: string): (m: UiMessage)
    ensures m.id == aiId && m.sender == AiSender && m.timestamp == now && m.feedback == None
    ensures outcome.Responded? ==> m.content == outcome.body.reply
    ensures outcome.SendFailed? ==> m.content == Some(ConnectionErrorText)
  {
    match outcome
    case Responded(body) => UiMessage(aiId, AiSender, body.reply, now, None)
    case SendFailed => UiMessage(aiId, AiSender, Some(ConnectionErrorText), now, None)
  }

  class ChatClient {
    var messages: seq<UiMessage>
    var inputValue: string
    var isTyping: bool
    var sessionId: Option<string>
    /** The `chat_sessionId` local-storage slot; it outlives the component. */
    var storedSession: Option<string>

    /** A fresh mount: the `useState` initial values, with whatever the slot already holds. */
    constructor (stored: Option<string>)
      ensures messages == [] && inputValue == "" && !isTyping && sessionId == None
      ensures storedSession == stored
    {
      messages, inputValue, isTyping, sessionId := [], "", false, None;
      storedSession := stored;
    }

    /** The mount effect: adopt a saved session and load its history, or show the greeting. */
    method Startup(history: string -> HistoryFetch, now: string)
      modifies this
      ensures storedSession == old(storedSession) && inputValue == old(inputValue) && isTyping == old(isTyping)
      ensures Truthy(storedSession) ==>
                && sessionId == storedSession
                && messages == (match history(storedSession.value)
                                case Fetched(rows) => LoadedMessages(rows, now)
                                case FetchFailed => old(messages))
      ensures !Truthy(storedSession) ==> sessionId == old(sessionId) && messages == [Greeting(now)]
    {
      var saved := storedSession;
      if Truthy(saved) {
        sessionId := saved;
        LoadHistory(saved.value, history, now);
      } else {
        messages := [Greeting(now)];
      }
    }

    /** `loadHistory(sessionId)`: replace the list on a good fetch; on a failure keep it. */
    method LoadHistory(sid: string, history: string -> HistoryFetch, now: string)
      modifies this`messages
      ensures history(sid).Fetched? ==> messages == LoadedMessages(history(sid).rows, now)
      ensures history(sid).FetchFailed? ==> messages == old(messages)
    {
      match history(sid)
      case Fetched(rows) =>
        messages := LoadedMessages(rows, now);
      case FetchFailed =>
    }

    /** The synchronous part of `handleSendMessage`: the blank guard, then the optimistic user
        bubble, the cleared input and the typing indicator. */
    method BeginSend(text: string, userId: string, now: string) returns (sent: bool)
      modifies this
      ensures sent <==> !IsBlank(text)
      ensures !sent ==> messages == old(messages) && inputValue == old(inputValue) && isTyping == old(isTyping)
      ensures sent ==> && messages == old(messages) + [UiMessage(userId, UserSender, Some(text), now, None)]
                       && inputValue == "" && isTyping
      ensures sessionId == old(sessionId) && storedSession == old(storedSession)
    {
      if IsBlank(text) {
        return false;
      }
      messages := messages + [UiMessage(userId, UserSender, Some(text), now, None)];
      inputValue := "";
      isTyping := true;
      sent := true;
    }

    /** The part of `handleSendMessage` after the fetch settles: adopt and store a returned session
        id, append exactly one AI bubble (timestamped when the fetch settled), clear the typing
        indicator. */
    method FinishSend(outcome: SendFetch, aiId: string, aiNow: string)
      modifies this
      ensures messages == old(messages) + [ReplyBubble(outcome, aiId, aiNow)]
      ensures !isTyping && inputValue == old(inputValue)
      ensures outcome.Responded? && Truthy(outcome.body.sessionId) ==>
                sessionId == outcome.body.sessionId && storedSession == outcome.body.sessionId
      ensures !(outcome.Responded? && Truthy(outcome.body.sessionId)) ==>
                sessionId == old(sessionId) && storedSession == old(storedSession)
    {
      if outcome.Responded? && Truthy(outcome.body.sessionId) {
        sessionId := outcome.body.sessionId;
        storedSession := outcome.body.sessionId;
      }
      messages := messages + [ReplyBubble(outcome, aiId, aiNow)];
      isTyping := false;
    }

    /** `handleSendMessage(text)`: a blank text changes nothing; otherwise exactly two bubbles are
        added, the user's (timestamped before the request) and one AI bubble (timestamped after it),
        and the request carries the session id held before. */
    method SendMessage(text: string, server: SendRequest -> SendFetch, userId: string, userNow: string,
                       aiId: string, aiNow: string)
      modifies this
      ensures IsBlank(text) ==>
                && messages == old(messages) && inputValue == old(inputValue) && isTyping == old(isTyping)
                && sessionId == old(sessionId) && storedSession == old(storedSession)
      ensures !IsBlank(text) ==>
                var outcome := server(SendRequest(text, old(sessionId)));
                && messages == old(messages) + [UiMessage(userId, UserSender, Some(text), userNow, None),
                                                ReplyBubble(outcome, aiId, aiNow)]
                && inputValue == "" && !isTyping
                && (outcome.Responded? && Truthy(outcome.body.sessionId) ==>
                      sessionId == outcome.body.sessionId && storedSession == outcome.body.sessionId)
                && (!(outcome.Responded? && Truthy(outcome.body.sessionId)) ==>
                      sessionId == old(sessionId) && storedSession == old(storedSession))
    {
      var sent := BeginSend(text, userId, userNow);
      if sent {
        var outcome := server(SendRequest(text, sessionId));
        FinishSend(outcome, aiId, aiNow);
      }
    }

    /** `handleSend`: send whatever is in the input box, exactly as `SendMessage` would. */
    method SendInput(server: SendRequest -> SendFetch, userId: string, userNow: string,
                     aiId: string, aiNow: string)
      modifies this
      ensures IsBlank(old(inputValue)) ==>
                && messages == old(messages) && inputValue == old(inputValue) && isTyping == old(isTyping)
                && sessionId == old(sessionId) && storedSession == old(storedSession)
      ensures !IsBlank(old(inputValue)) ==>
                var outcome := server(SendRequest(old(inputValue), old(sessionId)));
                && messages == old(messages) + [UiMessage(userId, UserSender, Some(old(inputValue)), userNow, None),
                                                ReplyBubble(outcome, aiId, aiNow)]
                && inputValue == "" && !isTyping
                && (outcome.Responded? && Truthy(outcome.body.sessionId) ==>
                      sessionId == outcome.body.sessionId && storedSession == outcome.body.sessionId)
                && (!(outcome.Responded? && Truthy(outcome.body.sessionId)) ==>
                      sessionId == old(sessionId) && storedSession == old(storedSession))
    {
      SendMessage(inputValue, server, userId, userNow, aiId, aiNow);
    }

    /** `handleSuggestionClick`: fill the input box, nothing else. */
    method SuggestionClick(suggestion: string)
      modifies this`inputValue
      ensures inputValue == suggestion
    {
      inputValue := suggestion;
    }

    /** `handleFeedback`. */
    method GiveFeedback(messageId: string, fb: Feedback)
      modifies this`messages
      ensures messages == SetFeedback(old(messages), messageId, fb)
    {
      messages := SetFeedback(messages, messageId, fb);
    }
  }
}
