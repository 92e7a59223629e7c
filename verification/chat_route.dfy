/**
 * The chat route (backend/src/routes/chat.ts): `POST /message` and `GET /history/:sessionId`.
 *
 * `Submit` is the submit handler as a function of the tables before the request;
 * the class `Store` holds the tables and runs the handler step by step, and is proved
 * to end in the state `Submit` describes. Storage failures are a parameter naming the
 * query that fails; the language-model service is an oracle.
 */
module ChatRoute {
  import opened Options
  import opened Storage
  import opened Llm

  const MaxMessageLength: nat := 500

  const MessageRequired: string := "Message is required"
  const MessageTooLong: string := "Message is too long (max 500 chars)"
  const InternalServerError: string := "Internal server error"
  const HistoryFetchFailed: string := "Failed to fetch chat history"

  /** The HTTP outcome of `POST /message`: a 200 body, a 400 or a 500. */
  datatype Response =
    | Replied(reply: string, sessionId: ConversationId)
    | BadRequest(error: string)
    | ServerError(error: string)

  /** The HTTP outcome of `GET /history/:sessionId`. */
  datatype HistoryResponse = HistoryRowsFound(rows: seq<Row>) | HistoryError(error: string)

  /** Which storage query of the submit handler throws, if any (connection loss and the like). */
  datatype StorageFault =
    | NoFault
    | ConversationInsertFails
    | UserInsertFails
    | HistoryQueryFails
    | AiInsertFails

  /** The final state of the tables together with the response. */
  datatype Submitted = Submitted(tables: Tables, response: Response)

  /**
   * The two 400 checks, in order: `!message` (a missing or empty message; no trimming),
   * then `message.length > 500`.
   */
  function ValidationError(message: Option<string>): (err: Option<string>)
    ensures err == None <==> message.Some? && 0 < |message.value| <= MaxMessageLength
    ensures (message.None? || message.value == "") ==> err == Some(MessageRequired)
    ensures message.Some? && |message.value| > MaxMessageLength ==> err == Some(MessageTooLong)
  {
    if message.None? || message.value == "" then Some(MessageRequired)
    else if |message.value| > MaxMessageLength then Some(MessageTooLong)
    else None
  }

  /** `!sessionId`: an absent/null session id, or the number 0. */
  predicate IsFalsy(sessionId: Option<ConversationId>) {
    sessionId.None? || sessionId.value == 0
  }

  /** `currentSessionId` after the optional conversation insert. */
  function ResolvedSession(t: Tables, sessionId: Option<ConversationId>): (c: ConversationId)
    ensures IsFalsy(sessionId) ==> c == FreshConversation(t)
    ensures !IsFalsy(sessionId) ==> c == sessionId.value
  {
    if IsFalsy(sessionId) then FreshConversation(t) else sessionId.value
  }

  /** The tables after the conversation is resolved: a new conversation only when the id is falsy. */
  function WithSession(t: Tables, sessionId: Option<ConversationId>): (t': Tables)
    ensures t'.messages == t.messages
    ensures IsFalsy(sessionId) ==> t'.conversations == t.conversations + {ResolvedSession(t, sessionId)}
    ensures !IsFalsy(sessionId) ==> t' == t
  {
    if IsFalsy(sessionId) then WithConversation(t) else t
  }

  /** The role a stored sender takes in the prompt: `user` stays `user`, anything else is `assistant`. */
  function RoleOf(sender: string): (role: Role)
    ensures role == User <==> sender == UserSender
    ensures role != System
  {
    if sender == UserSender then User else Assistant
  }

  /** `historyResult.rows.map(...)`: one prompt entry per row, same order, content unchanged. */
  function ToChatHistory(rows: seq<Row>): (history: seq<ChatMessage>)
    ensures |history| == |rows|
    ensures forall i :: 0 <= i < |rows| ==>
              history[i].content == rows[i].content && history[i].role == RoleOf(rows[i].sender)
  {
    if rows == [] then []
    else ToChatHistory(rows[..|rows| - 1]) + [ChatMessage(RoleOf(rows[|rows| - 1].sender), rows[|rows| - 1].content)]
  }

  /** The history passed to the generator for conversation `c`: the newest rows, newest first, mapped. */
  function ContextFor(t: Tables, c: ConversationId): (h: seq<ChatMessage>)
    ensures |h| <= HistoryLimit
    ensures forall i :: 0 <= i < |h| ==> h[i].role != System
  {
    ToChatHistory(HistoryRows(t.messages, c))
  }

  /**
   * The submit handler: validate, resolve or create the conversation, insert the user row,
   * read the history window, generate the reply, insert the ai row, respond. A failing query
   * ends the request with a 500 and leaves earlier writes in place (there is no rollback);
   * an unknown session id fails the user insert on the foreign key.
   */
  function Submit(t: Tables, message: Option<string>, sessionId: Option<ConversationId>,
                  fault: StorageFault, service: Service): (r: Submitted)
    ensures r.response.BadRequest? <==> ValidationError(message).Some?
    ensures r.response.BadRequest? ==> r.tables == t
    ensures r.response.Replied? ==> |r.tables.messages| == |t.messages| + 2 && r.response.reply != ""
  {
    match ValidationError(message)
    case Some(err) => Submitted(t, BadRequest(err))
    case None =>
      var text := message.value;
      if IsFalsy(sessionId) && fault == ConversationInsertFails then
        Submitted(t, ServerError(InternalServerError))
      else
        var t1 := WithSession(t, sessionId);
        var c := ResolvedSession(t, sessionId);
        if fault == UserInsertFails || c !in t1.conversations then
          Submitted(t1, ServerError(InternalServerError))
        else
          var t2 := WithMessage(t1, c, UserSender, text);
          if fault == HistoryQueryFails then
            Submitted(t2, ServerError(InternalServerError))
          else
            var reply := GenerateReply(text, ContextFor(t2, c), service);
            if fault == AiInsertFails then
              Submitted(t2, ServerError(InternalServerError))
            else
              Submitted(WithMessage(t2, c, AiSender, reply), Replied(reply, c))
  }

  /** The store the route writes to, updated in place by its queries. */
  class Store {
    var conversations: set<ConversationId>
    var messages: seq<Row>
    var nextConversation: nat
    var nextMessage: nat
    var clock: nat

    function Tables(): Tables
      reads this
    {
      Storage.Tables(conversations, messages, nextConversation, nextMessage, clock)
    }

    ghost predicate Valid()
      reads this
    {
      Storage.Valid(Tables())
    }

    constructor ()
      ensures Valid() && Tables() == Empty()
    {
      conversations, messages := {}, [];
      nextConversation, nextMessage, clock := 1, 1, 0;
    }

    /** `INSERT INTO conversations DEFAULT VALUES RETURNING id`. */
    method InsertConversation() returns (c: ConversationId)
      requires Valid()
      modifies this
      ensures Valid()
      ensures c == FreshConversation(old(Tables())) && c !in old(conversations)
      ensures Tables() == WithConversation(old(Tables()))
    {
      WithConversationValid(Tables());
      FreshConversationIsNew(Tables());
      c := nextConversation;
      conversations := conversations + {c};
      nextConversation := nextConversation + 1;
      clock := clock + 1;
    }

    /** `INSERT INTO messages (conversation_id, sender, content) VALUES ($1, $2, $3)`. */
    method InsertMessage(c: ConversationId, sender: string, content: string)
      requires Valid() && c in conversations && (sender == UserSender || sender == AiSender)
      modifies this
      ensures Valid()
      ensures Tables() == WithMessage(old(Tables()), c, sender, content)
    {
      WithMessageValid(Tables(), c, sender, content);
      messages := messages + [Row(nextMessage, c, sender, content, clock)];
      nextMessage := nextMessage + 1;
      clock := clock + 1;
    }

    /** `POST /message`. */
    method PostMessage(message: Option<string>, sessionId: Option<ConversationId>,
                       fault: StorageFault, service: Service) returns (res: Response)
      requires Valid()
      modifies this
      ensures Valid()
      ensures Submitted(Tables(), res) == Submit(old(Tables()), message, sessionId, fault, service)
    {
      ghost var t0 := Tables();
      var err := ValidationError(message);
      if err.Some? {
        return BadRequest(err.value);
      }
      var text := message.value;
      var currentSessionId: ConversationId;
      if IsFalsy(sessionId) {
        if fault == ConversationInsertFails {
          return ServerError(InternalServerError);
        }
        currentSessionId := InsertConversation();
      } else {
        currentSessionId := sessionId.value;
      }
      ghost var t1 := Tables();
      assert t1 == WithSession(t0, sessionId);
      assert currentSessionId == ResolvedSession(t0, sessionId);
      if fault == UserInsertFails || currentSessionId !in conversations {
        return ServerError(InternalServerError);
      }
      InsertMessage(currentSessionId, UserSender, text);
      ghost var t2 := Tables();
      if fault == HistoryQueryFails {
        return ServerError(InternalServerError);
      }
      var history := ToChatHistory(HistoryRows(messages, currentSessionId));
      assert history == ContextFor(t2, currentSessionId);
      var aiResponse := GenerateReply(text, history, service);
      if fault == AiInsertFails {
        return ServerError(InternalServerError);
      }
      InsertMessage(currentSessionId, AiSender, aiResponse);
      res := Replied(aiResponse, currentSessionId);
    }

    /** `GET /history/:sessionId`: every row of the conversation, oldest first; unknown ids give no rows. */
    method GetHistory(sessionId: ConversationId, queryFails: bool) returns (res: HistoryResponse)
      requires Valid()
      ensures queryFails ==> res == HistoryError(HistoryFetchFailed)
      ensures !queryFails ==> res.HistoryRowsFound?
      ensures res.HistoryRowsFound? ==>
                && (forall x :: x in res.rows <==> x in messages && x.conversationId == sessionId)
                && Chronological(res.rows)
                && ((forall x :: x in messages ==> x.conversationId != sessionId) ==> res.rows == [])
    {
      if queryFails {
        return HistoryError(HistoryFetchFailed);
      }
      ForConversationChronological(messages, sessionId);
      ForConversationMembers(messages, sessionId);
      var rows := ForConversation(messages, sessionId);
      if rows != [] {
        assert rows[0] in rows;
      }
      res := HistoryRowsFound(rows);
    }
  }
}
