/** Prompt assembly in `do_POST`: the message list becomes one text for the upstream. */
module Prompt {
  import opened Text

  /** One client message `{role, content}`; the role only labels the block. */
  datatype Message = Message(role: string, content: string)

  /** The block one message contributes: `"\n[[role]]\ncontent"`. */
  function Block(m: Message): string {
    "\n[[" + m.role + "]]\n" + m.content
  }

  /** The blocks of the messages, in the messages' order. */
  function Blocks(messages: seq<Message>): (r: seq<string>)
    ensures |r| == |messages|
    ensures forall i :: 0 <= i < |messages| ==> r[i] == Block(messages[i])
  {
    seq(|messages|, i requires 0 <= i < |messages| => Block(messages[i]))
  }

  /** The assembled prompt: the prefix, every message's block in order, then a newline and the suffix. */
  function AssembleMessage(before: string, messages: seq<Message>, after: string): string {
    before + Join(Blocks(messages)) + "\n" + after
  }

  /** The `message_builder` loop followed by `"".join(message_builder)`. */
  method BuildMessage(before: string, messages: seq<Message>, after: string) returns (message: string)
    ensures message == AssembleMessage(before, messages, after)
  {
    var builder := [before];
    for i := 0 to |messages|
      invariant builder == [before] + Blocks(messages[..i])
    {
      assert Blocks(messages[..i + 1]) == Blocks(messages[..i]) + [Block(messages[i])];
      builder := builder + [Block(messages[i])];
    }
    assert messages[..|messages|] == messages;
    builder := builder + ["\n" + after];
    message := Join(builder);
    JoinAppend([before] + Blocks(messages), ["\n" + after]);
    JoinAppend([before], Blocks(messages));
  }

  /**
   * Assembly preserves order: the prompt for `first + second` holds the blocks of `first`
   * followed by the blocks of `second`, between the same prefix and suffix.
   */
  lemma AssembleConcat(before: string, first: seq<Message>, second: seq<Message>, after: string)
    ensures AssembleMessage(before, first + second, after)
         == before + Join(Blocks(first)) + Join(Blocks(second)) + "\n" + after
  {
    assert Blocks(first + second) == Blocks(first) + Blocks(second);
    JoinAppend(Blocks(first), Blocks(second));
  }

  /** The worked example: a user turn and an assistant turn between the prefix "P" and the suffix "S". */
  lemma AssembleExample()
    ensures AssembleMessage("P", [Message("user", "a"), Message("assistant", "b")], "S")
         == "P\n[[user]]\na\n[[assistant]]\nb\nS"
  {
    var ms := [Message("user", "a"), Message("assistant", "b")];
    var user, assistant := Block(ms[0]), Block(ms[1]);
    assert Blocks(ms) == [user, assistant];
    assert Join([user, assistant]) == user + assistant by {
      assert [user, assistant][1..] == [assistant];
      assert Join([assistant]) == assistant + Join([]);
    }
  }

  /** Every message's content, with its role label, is carried whole inside the assembled prompt. */
  lemma {:induction false} AssembledLongerThanContent(before: string, messages: seq<Message>, after: string, i: int)
    requires 0 <= i < |messages|
    ensures |AssembleMessage(before, messages, after)|
         >= |before| + |messages[i].role| + |messages[i].content| + 6 + 1 + |after|
  {
    JoinLongerThanPart(Blocks(messages), i);
  }
}
