/**
 * The reply-generator adapter (`generateReply` in backend/src/utils/llm.ts).
 *
 * The call to the language-model service is an oracle: a total function from the
 * prompt list to an outcome. The adapter builds the prompt list and turns the
 * outcome into the reply text; it never fails.
 */
module Llm {
  import opened Options

  datatype Role = System | User | Assistant

  /** One entry of the prompt list sent to the service. */
  datatype ChatMessage = ChatMessage(role: Role, content: string)

  /** What the service call gives back: the first choice's content (possibly null or empty), or a thrown error. */
  datatype ServiceOutcome = Completed(content: Option<string>) | Failed

  /** The external language-model service, seen only through its answer to a prompt list. */
  type Service = seq<ChatMessage> -> ServiceOutcome

  /** The fixed persona and knowledge base, exactly as the adapter's template literal spells it. */
  const SystemPrompt: string :=
    "You are a helpful customer support agent for solving customer queries.\n"
    + "        Here is our knowledge base;\n"
    + "        - Shipping: Free for orders over \U{20B9}499. Below \U{20B9}499 shipping is \U{20B9}49.\n"
    + "      - Returns: 5-day return policy. Customer pays return shipping.\n"
    + "      - Hours: Mon-Fri, 9am-7pm IST.\n"
    + "      \n"
    + "      Be concise. If you don't know the answer, say \"Our support agent will get you in touch with you as soon as possible.\"\n"
    + "        "

  /** Returned when the service answers with null or empty content. */
  const EmptyReplyPlaceholder: string := "I'm sorry, I didn't catch that."

  /** Returned when the service call throws (network, quota, malformed response). */
  const HighTrafficFallback: string :=
    "I am currently experiencing high traffic.I'm sorry,I'm having trouble processing your message."

  /** `[system, ...history, user]`: the system prompt, the history unchanged, then the new message. */
  function PromptList(message: string, history: seq<ChatMessage>): (prompt: seq<ChatMessage>)
    ensures |prompt| == |history| + 2
    ensures prompt[0] == ChatMessage(System, SystemPrompt)
    ensures prompt[|prompt| - 1] == ChatMessage(User, message)
    ensures forall i :: 0 <= i < |history| ==> prompt[i + 1] == history[i]
  {
    [ChatMessage(System, SystemPrompt)] + history + [ChatMessage(User, message)]
  }

  /** The `content || placeholder` selection and the catch-all fallback. */
  function ReplyText(outcome: ServiceOutcome): (reply: string)
    ensures reply != ""
    ensures outcome.Failed? ==> reply == HighTrafficFallback
    ensures outcome.Completed? && (outcome.content.None? || outcome.content.value == "") ==>
              reply == EmptyReplyPlaceholder
    ensures outcome.Completed? && outcome.content.Some? && outcome.content.value != "" ==>
              reply == outcome.content.value
  {
    match outcome
    case Failed => HighTrafficFallback
    case Completed(content) =>
      if content.Some? && content.value != "" then content.value else EmptyReplyPlaceholder
  }

  /** `generateReply(message, history)`: always a non-empty text, generated or one of the two fixed strings. */
  function GenerateReply(message: string, history: seq<ChatMessage>, service: Service): (reply: string)
    ensures reply != ""
    ensures reply == HighTrafficFallback || reply == EmptyReplyPlaceholder
            || service(PromptList(message, history)) == Completed(Some(reply))
  {
    ReplyText(service(PromptList(message, history)))
  }
}
