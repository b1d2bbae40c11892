/**
 * The message split in `generate_with_anthropic` (backend/main.py): Anthropic's API
 * takes one system prompt and the conversation separately, so the prompt messages are
 * divided into the content of the last "system" message and every other message.
 */
module AnthropicSplit {
  import opened AiConfig

  /** The system prompt: the content of the last "system" message, or "" when there is none. */
  function LastSystemPrompt(messages: seq<Message>): (r: string)
    decreases |messages|
  {
    if messages == [] then ""
    else if messages[|messages| - 1].role == "system" then messages[|messages| - 1].content
    else LastSystemPrompt(messages[..|messages| - 1])
  }

  /** The conversation: every message that is not a "system" message, in order. */
  function NonSystem(messages: seq<Message>): (r: seq<Message>)
    decreases |messages|
  {
    if messages == [] then []
    else
      var last := messages[|messages| - 1];
      NonSystem(messages[..|messages| - 1]) + (if last.role == "system" then [] else [last])
  }

  /** The loop of `generate_with_anthropic` that fills `system_message` and `user_messages`. */
  method SplitForAnthropic(messages: seq<Message>) returns (systemMessage: string, userMessages: seq<Message>)
    ensures systemMessage == LastSystemPrompt(messages)
    ensures userMessages == NonSystem(messages)
  {
    systemMessage := "";
    userMessages := [];
    var i := 0;
    while i < |messages|
      invariant 0 <= i <= |messages|
      invariant systemMessage == LastSystemPrompt(messages[..i])
      invariant userMessages == NonSystem(messages[..i])
    {
      var msg := messages[i];
      assert messages[..i + 1][..i] == messages[..i];
      if msg.role == "system" {
        systemMessage := msg.content;
      } else {
        userMessages := userMessages + [Message(msg.role, msg.content)];
      }
      i := i + 1;
    }
    assert messages[..i] == messages;
  }

  /** With no "system" message the system prompt is empty. */
  lemma {:induction false} NoSystemMessageEmptyPrompt(messages: seq<Message>)
    requires forall k :: 0 <= k < |messages| ==> messages[k].role != "system"
    ensures LastSystemPrompt(messages) == ""
    decreases |messages|
  {
    if messages != [] {
      NoSystemMessageEmptyPrompt(messages[..|messages| - 1]);
    }
  }

  /** The system prompt is the content of the "system" message that no other one follows. */
  lemma {:induction false} LastSystemMessageWins(messages: seq<Message>, i: nat)
    requires i < |messages| && messages[i].role == "system"
    requires forall k :: i < k < |messages| ==> messages[k].role != "system"
    ensures LastSystemPrompt(messages) == messages[i].content
    decreases |messages|
  {
    if i < |messages| - 1 {
      LastSystemMessageWins(messages[..|messages| - 1], i);
    }
  }

  /** Splitting a concatenation splits each part: relative order is kept. */
  lemma {:induction false} NonSystemConcat(a: seq<Message>, b: seq<Message>)
    ensures NonSystem(a + b) == NonSystem(a) + NonSystem(b)
    decreases |b|
  {
    if b == [] {
      assert a + b == a;
    } else {
      var b' := b[..|b| - 1];
      assert (a + b)[..|a + b| - 1] == a + b';
      assert (a + b)[|a + b| - 1] == b[|b| - 1];
      NonSystemConcat(a, b');
    }
  }

  /** The conversation holds exactly the input's messages that are not "system" messages. */
  lemma {:induction false} NonSystemMembers(messages: seq<Message>, m: Message)
    ensures m in NonSystem(messages) <==> m in messages && m.role != "system"
    decreases |messages|
  {
    if messages != [] {
      var init := messages[..|messages| - 1];
      assert messages == init + [messages[|messages| - 1]];
      NonSystemMembers(init, m);
    }
  }

  /** Without "system" messages the conversation is the whole input. */
  lemma {:induction false} NoSystemMessageKeepsAll(messages: seq<Message>)
    requires forall k :: 0 <= k < |messages| ==> messages[k].role != "system"
    ensures NonSystem(messages) == messages
    decreases |messages|
  {
    if messages != [] {
      NoSystemMessageKeepsAll(messages[..|messages| - 1]);
      assert messages == messages[..|messages| - 1] + [messages[|messages| - 1]];
    }
  }
}
