/** Messages, what they cost, and the mutable list of them that a turn edits in place. */
module Prompt {
  import opened Wrappers

  datatype ToolCall = ToolCall(name: string, arguments: string)

  datatype Message = Message(
    role: string, content: string, images: seq<string>, toolCall: Option<ToolCall>, toolName: Option<string>)

  function SystemMessage(content: string): Message {
    Message("system", content, [], None, None)
  }

  function UserMessage(content: string): Message {
    Message("user", content, [], None, None)
  }

  function AssistantText(content: string): Message {
    Message("assistant", content, [], None, None)
  }

  function AssistantToolCall(call: ToolCall): Message {
    Message("assistant", "", [], Some(call), None)
  }

  function ToolResult(name: string, text: string, images: seq<string>): Message {
    Message("tool", text, images, None, Some(name))
  }

  /** The token counter: any cost per message, summed. */
  type Cost = Message -> nat

  function Estimate(messages: seq<Message>, cost: Cost): nat {
    if messages == [] then 0 else cost(messages[0]) + Estimate(messages[1..], cost)
  }

  lemma {:induction false} EstimateOne(m: Message, cost: Cost)
    ensures Estimate([m], cost) == cost(m) && Estimate([], cost) == 0
  {
  }

  lemma {:induction false} EstimateConcat(a: seq<Message>, b: seq<Message>, cost: Cost)
    ensures Estimate(a + b, cost) == Estimate(a, cost) + Estimate(b, cost)
  {
    if a == [] {
      assert a + b == b;
    } else {
      assert (a + b)[1..] == a[1..] + b;
      EstimateConcat(a[1..], b, cost);
    }
  }

  function TotalImages(messages: seq<Message>): nat {
    if messages == [] then 0 else TotalImages(messages[..|messages| - 1]) + |messages[|messages| - 1].images|
  }

  lemma {:induction false} TotalImagesOne(m: Message)
    ensures TotalImages([m]) == |m.images| && TotalImages([]) == 0
  {
  }

  lemma {:induction false} TotalImagesConcat(a: seq<Message>, b: seq<Message>)
    ensures TotalImages(a + b) == TotalImages(a) + TotalImages(b)
  {
    if b == [] {
      assert a + b == a;
    } else {
      assert (a + b)[..|a + b| - 1] == a + b[..|b| - 1];
      TotalImagesConcat(a, b[..|b| - 1]);
    }
  }

  /** `&mut Vec<Message>`. */
  class MessageList {
    var messages: seq<Message>

    constructor (messages: seq<Message>)
      ensures this.messages == messages
    {
      this.messages := messages;
    }

    method Push(message: Message)
      modifies this
      ensures messages == old(messages) + [message]
    {
      messages := messages + [message];
    }
  }
}
