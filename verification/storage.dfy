/**
 * The two tables the chat route reads and writes, as in-memory values.
 *
 * `conversations(id, created_at)` and
 * `messages(id, conversation_id -> conversations.id, sender, content, created_at)`.
 * The schema file is not part of this model; the model assumes a foreign key from
 * `messages.conversation_id` to `conversations.id`, senders limited to `user` and `ai`, and
 * ids handed out by counters starting at 1. `created_at` is a strictly increasing
 * clock, so the order of the `messages` sequence is the order of `created_at`.
 * The SQL queries of the route become filter, reverse and take over that sequence.
 */
module Storage {

  type ConversationId = nat

  const UserSender: string := "user"
  const AiSender: string := "ai"

  /** The number of rows the submit handler loads as context (`LIMIT 10`). */
  const HistoryLimit: nat := 10

  datatype Row = Row(id: nat, conversationId: ConversationId, sender: string, content: string, createdAt: nat)

  datatype Tables = Tables(
    conversations: set<ConversationId>,
    messages: seq<Row>,
    nextConversation: nat,  // the conversations id sequence
    nextMessage: nat,       // the messages id sequence
    clock: nat)             // stands in for now() in DEFAULT created_at

  /** Rows in strictly increasing creation order. */
  ghost predicate Chronological(rows: seq<Row>) {
    forall i, j :: 0 <= i < j < |rows| ==> rows[i].createdAt < rows[j].createdAt
  }

  /** Rows in strictly decreasing creation order (`ORDER BY created_at DESC`). */
  ghost predicate NewestFirst(rows: seq<Row>) {
    forall i, j :: 0 <= i < j < |rows| ==> rows[i].createdAt > rows[j].createdAt
  }

  /** The assumed schema constraints and the monotonicity of the id sequences and the clock. */
  ghost predicate Valid(t: Tables) {
    && 1 <= t.nextConversation
    && (forall c :: c in t.conversations ==> 1 <= c < t.nextConversation)
    && (forall i :: 0 <= i < |t.messages| ==>
          && t.messages[i].conversationId in t.conversations
          && t.messages[i].id < t.nextMessage
          && t.messages[i].createdAt < t.clock
          && (t.messages[i].sender == UserSender || t.messages[i].sender == AiSender))
    && (forall i, j :: 0 <= i < j < |t.messages| ==> t.messages[i].id < t.messages[j].id)
    && Chronological(t.messages)
  }

  function Empty(): (t: Tables)
    ensures Valid(t) && t.conversations == {} && t.messages == []
  {
    Tables({}, [], 1, 1, 0)
  }

  /** The id the next `INSERT INTO conversations DEFAULT VALUES RETURNING id` returns. */
  function FreshConversation(t: Tables): ConversationId {
    t.nextConversation
  }

  /** The effect of `INSERT INTO conversations DEFAULT VALUES`. */
  function WithConversation(t: Tables): (t': Tables)
    ensures t'.conversations == t.conversations + {FreshConversation(t)}
    ensures t'.messages == t.messages
  {
    t.(conversations := t.conversations + {t.nextConversation},
       nextConversation := t.nextConversation + 1,
       clock := t.clock + 1)
  }

  /** The effect of `INSERT INTO messages (conversation_id, sender, content)` once the foreign key is checked. */
  function WithMessage(t: Tables, c: ConversationId, sender: string, content: string): (t': Tables)
    ensures t'.conversations == t.conversations
    ensures |t'.messages| == |t.messages| + 1 && t'.messages[..|t.messages|] == t.messages
    ensures var r := t'.messages[|t.messages|];
            r.conversationId == c && r.sender == sender && r.content == content
  {
    t.(messages := t.messages + [Row(t.nextMessage, c, sender, content, t.clock)],
       nextMessage := t.nextMessage + 1,
       clock := t.clock + 1)
  }

  /** The id sequence never hands out an id already in use (nor 0). */
  lemma FreshConversationIsNew(t: Tables)
    requires Valid(t)
    ensures FreshConversation(t) !in t.conversations && FreshConversation(t) != 0
  {
  }

  lemma WithConversationValid(t: Tables)
    requires Valid(t)
    ensures Valid(WithConversation(t))
  {
  }

  /** An insert that passes the foreign key and the sender check keeps the tables valid, and the new
      row is the newest of all. */
  lemma WithMessageValid(t: Tables, c: ConversationId, sender: string, content: string)
    requires Valid(t) && c in t.conversations && (sender == UserSender || sender == AiSender)
    ensures Valid(WithMessage(t, c, sender, content))
  {
  }

  /** `WHERE conversation_id = c`, keeping the table's (creation) order. */
  function ForConversation(rows: seq<Row>, c: ConversationId): (r: seq<Row>)
    ensures |r| <= |rows|
    ensures forall i :: 0 <= i < |r| ==> r[i].conversationId == c
  {
    if rows == [] then []
    else
      var last := rows[|rows| - 1];
      ForConversation(rows[..|rows| - 1], c) + (if last.conversationId == c then [last] else [])
  }

  function Reverse(s: seq<Row>): (r: seq<Row>)
    ensures |r| == |s|
    ensures forall i :: 0 <= i < |s| ==> r[i] == s[|s| - 1 - i]
  {
    if s == [] then [] else [s[|s| - 1]] + Reverse(s[..|s| - 1])
  }

  /**
   * `WHERE conversation_id = c ORDER BY created_at DESC LIMIT 10`: the newest
   * rows of the conversation, newest first.
   */
  function HistoryRows(rows: seq<Row>, c: ConversationId): (w: seq<Row>)
    ensures var all := ForConversation(rows, c);
            && |w| == (if |all| < HistoryLimit then |all| else HistoryLimit)
            && forall i :: 0 <= i < |w| ==> w[i] == all[|all| - 1 - i]
  {
    var newest := Reverse(ForConversation(rows, c));
    if |newest| <= HistoryLimit then newest else newest[..HistoryLimit]
  }

  /** Appending a row extends the conversation's rows by that row exactly when it belongs to it. */
  lemma ForConversationAppend(rows: seq<Row>, x: Row, c: ConversationId)
    ensures ForConversation(rows + [x], c)
            == ForConversation(rows, c) + (if x.conversationId == c then [x] else [])
  {
  }

  /** The filter keeps exactly the rows of conversation `c`. */
  lemma {:induction false} ForConversationMembers(rows: seq<Row>, c: ConversationId)
    ensures forall x :: x in ForConversation(rows, c) <==> x in rows && x.conversationId == c
  {
    if rows != [] {
      var init, last := rows[..|rows| - 1], rows[|rows| - 1];
      ForConversationMembers(init, c);
      assert rows == init + [last];
    }
  }

  /** Filtering keeps creation order: `ORDER BY created_at ASC` is the table order restricted. */
  lemma {:induction false} ForConversationChronological(rows: seq<Row>, c: ConversationId)
    requires Chronological(rows)
    ensures Chronological(ForConversation(rows, c))
  {
    if rows != [] {
      var init := rows[..|rows| - 1];
      var last := rows[|rows| - 1];
      assert Chronological(init);
      ForConversationChronological(init, c);
      ForConversationMembers(init, c);
      var pre := ForConversation(init, c);
      forall x | x in pre ensures x.createdAt < last.createdAt {
        var k :| 0 <= k < |init| && init[k] == x;
      }
    }
  }

  /** A row appended to conversation `c` becomes the head of its window, and the oldest row of a
      full window drops out. */
  lemma HistoryRowsAfterAppend(rows: seq<Row>, x: Row, c: ConversationId)
    requires x.conversationId == c
    ensures var w := HistoryRows(rows, c);
            HistoryRows(rows + [x], c) == [x] + (if |w| < HistoryLimit then w else w[..HistoryLimit - 1])
  {
    ForConversationAppend(rows, x, c);
    var before, after := ForConversation(rows, c), ForConversation(rows + [x], c);
    assert after == before + [x];
    var w, w' := HistoryRows(rows, c), HistoryRows(rows + [x], c);
    var expected := [x] + (if |w| < HistoryLimit then w else w[..HistoryLimit - 1]);
    assert |w'| == |expected|;
    forall i | 0 < i < |w'| ensures w'[i] == expected[i] {
      assert w'[i] == after[|after| - 1 - i] == before[|before| - 1 - (i - 1)];
    }
  }

  /** The history window is in strictly decreasing creation order, and every row of the conversation
      left out of it is older than every row inside it. */
  lemma HistoryRowsNewest(rows: seq<Row>, c: ConversationId)
    requires Chronological(rows)
    ensures NewestFirst(HistoryRows(rows, c))
    ensures var all, w := ForConversation(rows, c), HistoryRows(rows, c);
            forall k, i :: 0 <= k < |all| - |w| && 0 <= i < |w| ==> all[k].createdAt < w[i].createdAt
  {
    ForConversationChronological(rows, c);
  }
}
