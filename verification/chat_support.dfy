/** The customer's chat sheet (components/shared/CustomerSide/chatSupport.tsx):
    a message list that starts with a greeting, an input line, a send that
    ignores blank input, and the canned support reply that follows each
    send after a timer. The timer is not modelled; its callback is the
    separate step `DeliverReply`, and the sheet counts the callbacks still
    to come. */
module ChatSupport {
  import opened JsStrings
  import Seqs

  datatype Sender = Support | User

  datatype Message = Message(sender: Sender, text: string)

  const Greeting: Message := Message(Support, "Hello! How can we assist you today? \U{1F60A}")

  const Reply: Message := Message(Support, "Thanks for your message! We'll get back to you shortly.")

  /** The synchronous part of `sendMessage`: the new message list and the
      new input. */
  function Send(messages: seq<Message>, input: string): (r: (seq<Message>, string))
    ensures IsBlank(input) ==> r == (messages, input)
    ensures !IsBlank(input) ==> |r.0| == |messages| + 1 && r.0[..|messages|] == messages
    ensures !IsBlank(input) ==> r.0[|messages|] == Message(User, input) && r.1 == ""
  {
    if IsBlank(input) then (messages, input)
    else (messages + [Message(User, input)], "")
  }

  predicate IsUserMessage(m: Message) {
    m.sender == User
  }

  predicate IsReply(m: Message) {
    m == Reply
  }

  /** A send adds one user message when the input is not blank and never a
      reply. */
  lemma SendCounts(messages: seq<Message>, input: string)
    ensures Seqs.Count(Send(messages, input).0, IsUserMessage) ==
            Seqs.Count(messages, IsUserMessage) + if IsBlank(input) then 0 else 1
    ensures Seqs.Count(Send(messages, input).0, IsReply) == Seqs.Count(messages, IsReply)
  {
    if !IsBlank(input) {
      var m := Message(User, input);
      Seqs.CountAppend(messages, [m], IsUserMessage);
      Seqs.CountAppend(messages, [m], IsReply);
      assert Seqs.Filter([m], IsUserMessage) == [m] + Seqs.Filter([m][1..], IsUserMessage);
      assert Seqs.Filter([m], IsReply) == Seqs.Filter([m][1..], IsReply);
    }
  }

  /** A delivered reply adds one reply and no user message. */
  lemma ReplyCounts(messages: seq<Message>)
    ensures Seqs.Count(messages + [Reply], IsReply) == Seqs.Count(messages, IsReply) + 1
    ensures Seqs.Count(messages + [Reply], IsUserMessage) == Seqs.Count(messages, IsUserMessage)
  {
    Seqs.CountAppend(messages, [Reply], IsUserMessage);
    Seqs.CountAppend(messages, [Reply], IsReply);
    assert Seqs.Filter([Reply], IsUserMessage) == Seqs.Filter([Reply][1..], IsUserMessage);
    assert Seqs.Filter([Reply], IsReply) == [Reply] + Seqs.Filter([Reply][1..], IsReply);
  }

  /** A send empties the input, so pressing send again at once does
      nothing. */
  lemma SendTwice(messages: seq<Message>, input: string)
    ensures var (ms, rest) := Send(messages, input);
            Send(ms, rest) == (ms, rest)
  {
    BlankIffAllWhitespace("");
  }

  /** Only whitespace keeps a message from being sent: any input with one
      visible character is appended verbatim, surrounding spaces and all. */
  lemma VisibleInputIsSent(messages: seq<Message>, input: string, i: nat)
    requires i < |input| && !IsWhitespace(input[i])
    ensures Send(messages, input).0 == messages + [Message(User, input)]
  {
    BlankIffAllWhitespace(input);
  }

  class ChatSheet {
    var messages: seq<Message>
    var input: string
    var open: bool
    /** Replies scheduled by a send whose timer has not fired yet. */
    var pendingReplies: nat

    /** Every user message is answered by a reply, delivered or pending. */
    ghost predicate Valid()
      reads this
    {
      Seqs.Count(messages, IsUserMessage) == Seqs.Count(messages, IsReply) + pendingReplies
    }

    constructor ()
      ensures Valid()
      ensures messages == [Greeting] && input == "" && !open && pendingReplies == 0
    {
      messages := [Greeting];
      input := "";
      open := false;
      pendingReplies := 0;
      assert Seqs.Filter([Greeting], IsUserMessage) == Seqs.Filter([Greeting][1..], IsUserMessage);
      assert Seqs.Filter([Greeting], IsReply) == Seqs.Filter([Greeting][1..], IsReply);
    }

    /** The floating button and the sheet's `onOpenChange`. */
    method SetOpen(value: bool)
      modifies this
      ensures open == value && messages == old(messages) && input == old(input)
      ensures pendingReplies == old(pendingReplies)
    {
      open := value;
    }

    /** The input's `onChange`. */
    method HandleInputChange(value: string)
      modifies this
      ensures input == value && messages == old(messages) && open == old(open)
      ensures pendingReplies == old(pendingReplies)
    {
      input := value;
    }

    /** `sendMessage` up to scheduling the reply; `sent` says whether a
        reply was scheduled. */
    method SendMessage() returns (sent: bool)
      requires Valid()
      modifies this
      ensures Valid()
      ensures sent <==> !IsBlank(old(input))
      ensures (messages, input) == Send(old(messages), old(input))
      ensures pendingReplies == old(pendingReplies) + if sent then 1 else 0
      ensures open == old(open)
    {
      SendCounts(messages, input);
      if IsBlank(input) {
        return false;
      }
      messages := messages + [Message(User, input)];
      input := "";
      pendingReplies := pendingReplies + 1;
      sent := true;
    }

    /** The timer's callback, which only a send schedules: one support reply
        at the end and nothing else. */
    method DeliverReply()
      requires Valid() && pendingReplies > 0
      modifies this
      ensures Valid()
      ensures messages == old(messages) + [Reply]
      ensures pendingReplies == old(pendingReplies) - 1
      ensures input == old(input) && open == old(open)
    {
      ReplyCounts(messages);
      messages := messages + [Reply];
      pendingReplies := pendingReplies - 1;
    }
  }
}
