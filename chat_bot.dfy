/**
 * ai_service.py: the `ChatBot` object, which answers questions about one
 * set of notes and keeps the conversation so far in an append-only history.
 * The chat-completion call is a parameter: given the messages it returns the
 * assistant's reply, or `None` when the request or the decoding of its
 * answer raises.
 */
module ChatBot {
  import opened Wrappers

  datatype Role = System | User | Assistant

  datatype Message = Message(role: Role, content: string)

  /** The chat-completion service, from the messages sent to the reply. */
  type Completion = seq<Message> -> Option<string>

  const Preamble: string := "You are a helpful study assistant.\nPlease answer questions using only the information in the notes below:\n---\n"

  const Postamble: string := "\n---\nIf you\U{2019}re not sure about the answer, it\U{2019}s okay to say \U{201c}I don\U{2019}t know.\U{201d}\nIf the question is unrelated to the notes, just let me know that it\U{2019}s outside the scope."

  /** The system prompt: the notes verbatim between two `---` lines. */
  function SystemMessage(notes: string): (m: string)
    ensures |m| == |Preamble| + |notes| + |Postamble|
    ensures m[..|Preamble|] == Preamble
    ensures m[|Preamble|..|Preamble| + |notes|] == notes
    ensures m[|Preamble| + |notes|..] == Postamble
  {
    Preamble + notes + Postamble
  }

  /** Distinct notes give distinct system prompts. */
  lemma SystemMessageInjective(a: string, b: string)
    requires SystemMessage(a) == SystemMessage(b)
    ensures a == b
  {
    assert |a| == |b|;
    assert a == SystemMessage(a)[|Preamble|..|Preamble| + |a|];
  }

  /** A history of complete exchanges: user and assistant turns alternate,
      starting with the user. */
  predicate Alternating(h: seq<Message>) {
    |h| % 2 == 0 && forall i :: 0 <= i < |h| ==> h[i].role == (if i % 2 == 0 then User else Assistant)
  }

  class Bot {
    const systemMessage: string
    var history: seq<Message>

    /** A new bot for `notes`, with an empty history. */
    constructor (notes: string)
      ensures systemMessage == SystemMessage(notes) && history == []
    {
      systemMessage := Preamble + notes + Postamble;
      history := [];
    }

    /** `add_user_message`: exactly one user entry is appended. */
    method AddUserMessage(message: string)
      modifies this
      ensures history == old(history) + [Message(User, message)]
    {
      history := history + [Message(User, message)];
    }

    /** `add_assistant_message`: exactly one assistant entry is appended. */
    method AddAssistantMessage(message: string)
      modifies this
      ensures history == old(history) + [Message(Assistant, message)]
    {
      history := history + [Message(Assistant, message)];
    }

    /** The messages sent for the current history. */
    function Prompt(): (p: seq<Message>)
      reads this
      ensures |p| == |history| + 1 && p[0] == Message(System, systemMessage) && p[1..] == history
    {
      [Message(System, systemMessage)] + history
    }

    /** `chat`: the question is recorded first, the service sees the system
      prompt followed by the whole history including the question, and its
      reply is recorded after it. When the service fails the question stays
      recorded without a reply and the error is passed on. Earlier entries are
      never changed. */
    method Chat(question: string, complete: Completion) returns (r: Result<string, string>)
      modifies this
      ensures var sent := [Message(System, systemMessage)] + old(history) + [Message(User, question)];
        && (complete(sent).None? ==> r.Err? && history == old(history) + [Message(User, question)])
        && (complete(sent).Some? ==>
              && r == Ok(complete(sent).value)
              && history == old(history) + [Message(User, question), Message(Assistant, r.value)])
      ensures old(history) <= history
      ensures Alternating(old(history)) && r.Ok? ==> Alternating(history)
    {
      AddUserMessage(question);
      var messages := Prompt();
      assert messages == [Message(System, systemMessage)] + old(history) + [Message(User, question)];
      var reply := complete(messages);
      if reply.None? {
        return Err("chat completion failed");
      }
      AddAssistantMessage(reply.value);
      assert history == old(history) + [Message(User, question), Message(Assistant, reply.value)];
      if Alternating(old(history)) {
        AlternatingExchange(old(history), question, reply.value);
      }
      r := Ok(reply.value);
    }
  }

  /** Appending one question and its answer keeps exchanges complete. */
  lemma AlternatingExchange(h: seq<Message>, question: string, answer: string)
    requires Alternating(h)
    ensures Alternating(h + [Message(User, question), Message(Assistant, answer)])
  {
    var h' := h + [Message(User, question), Message(Assistant, answer)];
    forall i | 0 <= i < |h'| ensures h'[i].role == (if i % 2 == 0 then User else Assistant) {
      if i < |h| {
        assert h'[i] == h[i];
      }
    }
  }

  /** Two successful questions in a row leave the two exchanges in order
      behind the earlier history. */
  method AskTwice(bot: Bot, q1: string, q2: string, complete: Completion)
    returns (r1: Result<string, string>, r2: Result<string, string>)
    modifies bot
    ensures r1.Ok? && r2.Ok? ==>
      bot.history == old(bot.history) + [Message(User, q1), Message(Assistant, r1.value),
                                         Message(User, q2), Message(Assistant, r2.value)]
  {
    r1 := bot.Chat(q1, complete);
    r2 := bot.Chat(q2, complete);
  }
}
