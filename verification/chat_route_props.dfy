/**
 * What the submit handler of backend/src/routes/chat.ts guarantees, stated about `Submit`
 * (and therefore about every run of `Store.PostMessage`).
 */
module ChatRouteProps {
  import opened Options
  import opened Storage
  import opened Llm
  import opened ChatRoute

  /** A rejected message gives its 400 and writes nothing. */
  lemma InvalidMessageRejected(t: Tables, message: Option<string>, sessionId: Option<ConversationId>,
                               fault: StorageFault, service: Service)
    requires Valid(t)
    ensures var r := Submit(t, message, sessionId, fault, service);
            && ((message.None? || message.value == "") ==> r == Submitted(t, BadRequest(MessageRequired)))
            && (message.Some? && |message.value| > MaxMessageLength ==> r == Submitted(t, BadRequest(MessageTooLong)))
  {
  }

  /**
   * There is no trimming: every message made only of blanks, up to 500 characters, passes
   * validation and, with a usable session and no failing query, is answered with a 200;
   * so is every message of exactly 500 characters.
   */
  lemma BlankAndFullLengthMessagesPass(t: Tables, m: string, sessionId: Option<ConversationId>, service: Service)
    requires Valid(t)
    requires IsFalsy(sessionId) || sessionId.value in t.conversations
    requires (0 < |m| <= MaxMessageLength && forall i :: 0 <= i < |m| ==> m[i] in {' ', '\t', '\n', '\r'})
             || |m| == MaxMessageLength
    ensures ValidationError(Some(m)) == None
    ensures Submit(t, Some(m), sessionId, NoFault, service).response.Replied?
  {
    SubmitSucceedsIff(t, Some(m), sessionId, NoFault, service);
  }

  /**
   * The request is answered with 200 exactly when the message is valid, the session resolves to
   * a conversation that exists (a new one, or a known id) and no query that runs fails (the
   * conversation insert runs only without a session id).
   */
  lemma SubmitSucceedsIff(t: Tables, message: Option<string>, sessionId: Option<ConversationId>,
                          fault: StorageFault, service: Service)
    requires Valid(t)
    ensures Submit(t, message, sessionId, fault, service).response.Replied?
            <==> && ValidationError(message) == None
                 && (IsFalsy(sessionId) || sessionId.value in t.conversations)
                 && (fault == NoFault || (fault == ConversationInsertFails && !IsFalsy(sessionId)))
  {
  }

  /** Without a session id exactly one conversation is created, with a fresh id, and the response names it. */
  lemma NewSessionCreatesOneConversation(t: Tables, message: Option<string>, sessionId: Option<ConversationId>,
                                         fault: StorageFault, service: Service)
    requires Valid(t) && ValidationError(message) == None && IsFalsy(sessionId)
    requires fault != ConversationInsertFails
    ensures var r := Submit(t, message, sessionId, fault, service);
            && r.tables.conversations == t.conversations + {FreshConversation(t)}
            && FreshConversation(t) !in t.conversations
            && (r.response.Replied? ==> r.response.sessionId == FreshConversation(t))
  {
  }

  /** With a (truthy) session id the set of conversations never changes, whatever happens. */
  lemma ExistingSessionKeepsConversations(t: Tables, message: Option<string>, sessionId: Option<ConversationId>,
                                          fault: StorageFault, service: Service)
    requires Valid(t) && !IsFalsy(sessionId)
    ensures var r := Submit(t, message, sessionId, fault, service);
            && r.tables.conversations == t.conversations
            && (r.response.Replied? ==> r.response.sessionId == sessionId.value)
  {
  }

  /** A session id that names no conversation breaks the foreign key of the first insert: 500, nothing written. */
  lemma UnknownSessionWritesNothing(t: Tables, message: Option<string>, sessionId: Option<ConversationId>,
                                    fault: StorageFault, service: Service)
    requires Valid(t) && ValidationError(message) == None
    requires !IsFalsy(sessionId) && sessionId.value !in t.conversations
    ensures Submit(t, message, sessionId, fault, service) == Submitted(t, ServerError(InternalServerError))
  {
  }

  /** Whatever happens, the tables stay valid: every row written passes the foreign key. */
  lemma SubmitPreservesValid(t: Tables, message: Option<string>, sessionId: Option<ConversationId>,
                             fault: StorageFault, service: Service)
    requires Valid(t)
    ensures Valid(Submit(t, message, sessionId, fault, service).tables)
  {
    var r := Submit(t, message, sessionId, fault, service);
    if ValidationError(message) == None && !(IsFalsy(sessionId) && fault == ConversationInsertFails) {
      var c := ResolvedSession(t, sessionId);
      var t1 := WithSession(t, sessionId);
      if IsFalsy(sessionId) {
        WithConversationValid(t);
      }
      if fault != UserInsertFails && c in t1.conversations {
        var t2 := WithMessage(t1, c, UserSender, message.value);
        WithMessageValid(t1, c, UserSender, message.value);
        if fault != HistoryQueryFails && fault != AiInsertFails {
          var reply := GenerateReply(message.value, ContextFor(t2, c), service);
          WithMessageValid(t2, c, AiSender, reply);
          assert r.tables == WithMessage(t2, c, AiSender, reply);
        } else {
          assert r.tables == t2;
        }
      } else {
        assert r.tables == t1;
      }
    } else {
      assert r.tables == t;
    }
  }

  /**
   * After the user row is inserted, the history window of the conversation is that new message
   * followed by the (up to nine) newest earlier rows, newest first.
   */
  lemma {:induction false} ContextAfterUserInsert(t: Tables, c: ConversationId, text: string)
    ensures var prior := ContextFor(t, c);
            ContextFor(WithMessage(t, c, UserSender, text), c)
            == [ChatMessage(User, text)] + (if |prior| < HistoryLimit then prior else prior[..HistoryLimit - 1])
  {
    var t2 := WithMessage(t, c, UserSender, text);
    var last := t2.messages[|t.messages|];
    assert t2.messages == t.messages + [last];
    HistoryRowsAfterAppend(t.messages, last, c);
    var w := HistoryRows(t.messages, c);
    var rest := if |w| < HistoryLimit then w else w[..HistoryLimit - 1];
    var prior := ToChatHistory(w);
    var h := ToChatHistory([last] + rest);
    var expected := [ChatMessage(User, text)] + (if |prior| < HistoryLimit then prior else prior[..HistoryLimit - 1]);
    assert |h| == |expected|;
    forall i | 0 <= i < |h| ensures h[i] == expected[i] {
      if i > 0 {
        assert rest[i - 1] == w[i - 1];
      }
    }
  }

  /**
   * The reply of a 200 is the generator's answer to the message with, as history, the message
   * itself followed by the (up to nine) newest earlier rows of the conversation, newest first.
   */
  lemma ReplyAnswersNewestWindow(t: Tables, message: Option<string>, sessionId: Option<ConversationId>,
                                 fault: StorageFault, service: Service)
    requires Submit(t, message, sessionId, fault, service).response.Replied?
    ensures var r := Submit(t, message, sessionId, fault, service);
            var prior := ContextFor(t, r.response.sessionId);
            var h := [ChatMessage(User, message.value)]
                     + (if |prior| < HistoryLimit then prior else prior[..HistoryLimit - 1]);
            r.response.reply == GenerateReply(message.value, h, service)
  {
    var c := ResolvedSession(t, sessionId);
    var t1 := WithSession(t, sessionId);
    var t2 := WithMessage(t1, c, UserSender, message.value);
    var reply := GenerateReply(message.value, ContextFor(t2, c), service);
    assert Submit(t, message, sessionId, fault, service).response == Replied(reply, c);
    assert ContextFor(t1, c) == ContextFor(t, c);
    ContextAfterUserInsert(t1, c, message.value);
  }

  /**
   * A successful submit appends exactly two rows to the resolved conversation, `(user, message)`
   * then `(ai, reply)`, keeps every earlier row, and the response carries the persisted reply.
   */
  lemma SuccessAppendsTwoRows(t: Tables, message: Option<string>, sessionId: Option<ConversationId>,
                              fault: StorageFault, service: Service)
    requires Submit(t, message, sessionId, fault, service).response.Replied?
    ensures var r := Submit(t, message, sessionId, fault, service);
            var n := |t.messages|;
            && |r.tables.messages| == n + 2
            && r.tables.messages[..n] == t.messages
            && r.tables.messages[n].conversationId == r.response.sessionId
            && r.tables.messages[n].sender == UserSender
            && r.tables.messages[n].content == message.value
            && r.tables.messages[n + 1].conversationId == r.response.sessionId
            && r.tables.messages[n + 1].sender == AiSender
            && r.tables.messages[n + 1].content == r.response.reply
            && r.response.reply != ""
  {
  }

  /**
   * No rollback: once the user row is written, a later failing query returns a 500 and the
   * user row stays, with no ai row after it.
   */
  lemma NoRollbackAfterUserInsert(t: Tables, message: Option<string>, sessionId: Option<ConversationId>,
                                  fault: StorageFault, service: Service)
    requires Valid(t) && ValidationError(message) == None
    requires IsFalsy(sessionId) || sessionId.value in t.conversations
    requires fault == HistoryQueryFails || fault == AiInsertFails
    ensures var r := Submit(t, message, sessionId, fault, service);
            var n := |t.messages|;
            && r.response == ServerError(InternalServerError)
            && |r.tables.messages| == n + 1
            && r.tables.messages[..n] == t.messages
            && r.tables.messages[n].sender == UserSender
            && r.tables.messages[n].content == message.value
  {
  }

  /**
   * The history window handed to the generator: at most 10 entries, the newest rows of the
   * conversation newest first, so its first entry is the user message just inserted; the prompt
   * therefore carries that message twice, right after the system prompt and at the end.
   */
  lemma GeneratorSeesJustInsertedMessageFirst(t: Tables, sessionId: Option<ConversationId>, text: string)
    requires Valid(t)
    requires IsFalsy(sessionId) || sessionId.value in t.conversations
    ensures var c := ResolvedSession(t, sessionId);
            var t2 := WithMessage(WithSession(t, sessionId), c, UserSender, text);
            var h := ContextFor(t2, c);
            var prompt := PromptList(text, h);
            && 1 <= |h| <= HistoryLimit
            && h[0] == ChatMessage(User, text)
            && prompt[1] == prompt[|prompt| - 1] == ChatMessage(User, text)
  {
    var c := ResolvedSession(t, sessionId);
    var t1 := WithSession(t, sessionId);
    var t2 := WithMessage(t1, c, UserSender, text);
    var last := t2.messages[|t1.messages|];
    assert t2.messages == t1.messages + [last];
    ForConversationAppend(t1.messages, last, c);
  }

  /** The history window holds the newest rows of the conversation, newest first, mapped to roles. */
  lemma ContextIsNewestRows(t: Tables, c: ConversationId)
    ensures var all := ForConversation(t.messages, c);
            var h := ContextFor(t, c);
            && |h| <= HistoryLimit && |h| <= |all|
            && (|all| <= HistoryLimit ==> |h| == |all|)
            && forall i :: 0 <= i < |h| ==>
                 && h[i].content == all[|all| - 1 - i].content
                 && h[i].role == RoleOf(all[|all| - 1 - i].sender)
  {
  }

  /**
   * When the service cannot be reached the request still succeeds: the fixed high-traffic text is
   * both the reply and the content of the persisted ai row.
   */
  lemma ServiceDownStillReplies(t: Tables, message: Option<string>, sessionId: Option<ConversationId>,
                                service: Service)
    requires Valid(t) && ValidationError(message) == None
    requires IsFalsy(sessionId) || sessionId.value in t.conversations
    requires forall prompt :: service(prompt) == Failed
    ensures var r := Submit(t, message, sessionId, NoFault, service);
            && r.response == Replied(HighTrafficFallback, ResolvedSession(t, sessionId))
            && r.tables.messages[|r.tables.messages| - 1].content == HighTrafficFallback
  {
    SubmitSucceedsIff(t, message, sessionId, NoFault, service);
    ReplyAnswersNewestWindow(t, message, sessionId, NoFault, service);
    SuccessAppendsTwoRows(t, message, sessionId, NoFault, service);
    if IsFalsy(sessionId) {
      NewSessionCreatesOneConversation(t, message, sessionId, NoFault, service);
    } else {
      ExistingSessionKeepsConversations(t, message, sessionId, NoFault, service);
    }
  }

  /**
   * The first submit on an empty store, followed by a history read of the new conversation,
   * gives back the user turn and then the reply.
   */
  lemma FirstExchangeReadsBack(service: Service)
    ensures var text := "What are your shipping charges?";
            var r := Submit(Empty(), Some(text), None, NoFault, service);
            && r.response.Replied?
            && var rows := ForConversation(r.tables.messages, r.response.sessionId);
               && |rows| == 2
               && rows[0].sender == UserSender && rows[0].content == text
               && rows[1].sender == AiSender && rows[1].content == r.response.reply
  {
    var text := "What are your shipping charges?";
    var t1 := WithSession(Empty(), None);
    var c := ResolvedSession(Empty(), None);
    var t2 := WithMessage(t1, c, UserSender, text);
    var reply := GenerateReply(text, ContextFor(t2, c), service);
    var t3 := WithMessage(t2, c, AiSender, reply);
    assert t2.messages == [] + [t2.messages[0]];
    ForConversationAppend([], t2.messages[0], c);
    assert t3.messages == t2.messages + [t3.messages[1]];
    ForConversationAppend(t2.messages, t3.messages[1], c);
  }
}
