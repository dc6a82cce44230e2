/** The chat widget: a conversation that starts with one greeting, a text
    input, and a loading flag that guards against a second send while a
    simulated reply is pending. */
module Chat {
  import opened Seqs

  datatype Sender = User | Ai

  /** One chat turn; the timestamp is not modelled. `isTyping` marks the
      transient "Thinking" placeholder. */
  datatype Message = Message(id: string, content: string, sender: Sender, isTyping: bool)

  const Greeting: string := "Hello! I'm StudyMate AI. I've analyzed your uploaded documents and I'm ready to help you learn. Ask me anything about your study materials!"

  /** How many canned replies there are; the source picks one with
      `Math.floor(Math.random() * responses.length)`. */
  const ReplyCount: nat := 5

  /** The canned replies, by index. */
  function Response(k: nat): string
    requires k < ReplyCount
  {
    if k == 0 then "Based on your uploaded documents, I can see that this topic involves several key concepts. Let me break them down for you in a clear, structured way..."
    else if k == 1 then "Great question! From the materials you've provided, I found relevant information that directly addresses this. Here's what I discovered..."
    else if k == 2 then "I've analyzed the content in your PDFs and found some interesting insights about this topic. The main points include..."
    else if k == 3 then "Excellent question! This is a fundamental concept covered in your study materials. Let me explain it step by step..."
    else "I can help you understand this better by connecting it to the examples and explanations in your uploaded documents..."
  }

  ghost predicate IsCannedReply(content: string)
  {
    exists k :: 0 <= k < ReplyCount && content == Response(k)
  }

  const SuggestedQuestions: seq<string> := [
    "Summarize the main concepts from this document",
    "What are the key formulas I should remember?",
    "Explain this topic in simple terms",
    "Create a study plan from this material",
    "What are the most important points to review?"
  ]

  function GreetingMessage(): Message
  {
    Message("1", Greeting, Ai, false)
  }

  // ---- String.prototype.trim ----------------------------------------------------

  /** The ECMAScript white-space and line-terminator code points that `trim` strips. */
  predicate IsWhitespace(c: char)
  {
    var n := c as int;
    n == 0x09 || n == 0x0A || n == 0x0B || n == 0x0C || n == 0x0D || n == 0x20 ||
    n == 0xA0 || n == 0x1680 || (0x2000 <= n <= 0x200A) || n == 0x2028 || n == 0x2029 ||
    n == 0x202F || n == 0x205F || n == 0x3000 || n == 0xFEFF
  }

  /** `s` without its leading white space. */
  function TrimStart(s: string): (r: string)
    ensures |r| <= |s| && r == s[|s| - |r|..]
    ensures r == [] || !IsWhitespace(r[0])
    ensures forall i :: 0 <= i < |s| - |r| ==> IsWhitespace(s[i])
  {
    if s != [] && IsWhitespace(s[0]) then TrimStart(s[1..]) else s
  }

  /** `s` without its trailing white space. */
  function TrimEnd(s: string): (r: string)
    ensures |r| <= |s| && r == s[..|r|]
    ensures r == [] || !IsWhitespace(r[|r| - 1])
    ensures forall i :: |r| <= i < |s| ==> IsWhitespace(s[i])
  {
    if s != [] && IsWhitespace(s[|s| - 1]) then TrimEnd(s[..|s| - 1]) else s
  }

  /** `r` occurs in `s` starting at position `i`. */
  predicate SliceAt(s: string, i: int, r: string)
  {
    0 <= i <= |s| - |r| && s[i..i + |r|] == r
  }

  /** Trimming the end of the start-trimmed string keeps a piece of `s`. */
  lemma TrimIsSlice(s: string)
    ensures SliceAt(s, |s| - |TrimStart(s)|, TrimEnd(TrimStart(s)))
  {
    var t := TrimStart(s);
    PrefixOfSuffix(s, |s| - |t|, |TrimEnd(t)|);
  }

  /** A prefix of a suffix is a slice. */
  lemma PrefixOfSuffix(s: string, i: nat, n: nat)
    requires i + n <= |s|
    ensures s[i..][..n] == s[i..i + n]
  {
  }

  /** Trimming the end keeps the first character when anything is left. */
  lemma TrimEndKeepsFirst(t: string)
    ensures TrimEnd(t) == [] || TrimEnd(t)[0] == t[0]
  {
  }

  /** `s.trim()`: a contiguous piece of `s` that neither starts nor ends
      with white space. */
  function Trim(s: string): (r: string)
    ensures exists i :: SliceAt(s, i, r)
    ensures r == [] || (!IsWhitespace(r[0]) && !IsWhitespace(r[|r| - 1]))
  {
    TrimIsSlice(s);
    TrimEndKeepsFirst(TrimStart(s));
    TrimEnd(TrimStart(s))
  }

  /** `r` sits in `s` at position `i` with only white space before and after it. */
  predicate TrimmedAt(s: string, i: int, r: string)
  {
    SliceAt(s, i, r) &&
    (forall j :: 0 <= j < i ==> IsWhitespace(s[j])) &&
    (forall j :: i + |r| <= j < |s| ==> IsWhitespace(s[j]))
  }

  /** `trim` cuts off white space only, and all of it. */
  lemma TrimDropsOnlyWhiteSpace(s: string)
    ensures exists i :: TrimmedAt(s, i, Trim(s))
  {
    var t := TrimStart(s);
    var r := TrimEnd(t);
    var i := |s| - |t|;
    TrimIsSlice(s);
    assert t == s[i..];
    forall j | i + |r| <= j < |s| ensures IsWhitespace(s[j]) {
      assert s[j] == t[j - i];
    }
    assert TrimmedAt(s, i, Trim(s));
  }

  /** `!s.trim()` holds exactly when every character of `s` is white space. */
  lemma TrimEmptyIffBlank(s: string)
    ensures Trim(s) == [] <==> forall i :: 0 <= i < |s| ==> IsWhitespace(s[i])
  {
  }

  /** The send guard `!(!inputValue.trim() || isLoading)`; the send button
      carries the same expression as its enabled state. */
  predicate CanSend(input: string, isLoading: bool)
  {
    Trim(input) != [] && !isLoading
  }

  /** Whether the send button is enabled: exactly when the input has a
      non-white-space character and no reply is pending. */
  lemma CanSendIff(input: string, isLoading: bool)
    ensures CanSend(input, isLoading) <==>
      !isLoading && exists i :: 0 <= i < |input| && !IsWhitespace(input[i])
  {
    TrimEmptyIffBlank(input);
  }

  // ---- The placeholder filter -----------------------------------------------------

  /** The test `m => !m.isTyping` of the placeholder filter. */
  function NotTyping(): Message -> bool
  {
    (m: Message) => !m.isTyping
  }

  /** `prev.filter(m => !m.isTyping)`. */
  function WithoutTyping(ms: seq<Message>): (r: seq<Message>)
    ensures forall i :: 0 <= i < |r| ==> !r[i].isTyping && r[i] in ms
    ensures forall i :: 0 <= i < |ms| && !ms[i].isTyping ==> ms[i] in r
  {
    FilterMembers(ms, NotTyping());
    Filter(ms, NotTyping())
  }

  /** A conversation with no placeholder passes the filter unchanged. */
  lemma WithoutTypingNone(ms: seq<Message>)
    requires forall i :: 0 <= i < |ms| ==> !ms[i].isTyping
    ensures WithoutTyping(ms) == ms
  {
    FilterKeepsAll(ms, NotTyping());
  }

  /** With the placeholder last and nowhere else, the filter removes exactly
      the last message and keeps the others in order. */
  lemma WithoutTypingDropsLast(ms: seq<Message>)
    requires |ms| > 0 && ms[|ms| - 1].isTyping
    requires forall i :: 0 <= i < |ms| - 1 ==> !ms[i].isTyping
    ensures WithoutTyping(ms) == ms[..|ms| - 1]
  {
    var keep := NotTyping();
    assert ms == ms[..|ms| - 1] + [ms[|ms| - 1]];
    FilterConcat(ms[..|ms| - 1], [ms[|ms| - 1]], keep);
    FilterKeepsAll(ms[..|ms| - 1], keep);
    assert Filter([ms[|ms| - 1]], keep) == [];
  }

  /** The shape every reachable conversation has: the greeting first; a
      placeholder, if any, only in last place, and present exactly while a
      reply is pending; placeholders are empty AI turns; every later AI turn
      is one of the canned replies. */
  ghost predicate Conversation(ms: seq<Message>, isLoading: bool)
  {
    |ms| >= 1 && ms[0] == GreetingMessage() &&
    (forall i :: 0 <= i < |ms| - 1 ==> !ms[i].isTyping) &&
    (ms[|ms| - 1].isTyping <==> isLoading) &&
    (forall i :: 0 <= i < |ms| && ms[i].isTyping ==> ms[i].sender == Ai && ms[i].content == "") &&
    (forall i :: 0 < i < |ms| && ms[i].sender == Ai && !ms[i].isTyping ==> IsCannedReply(ms[i].content))
  }

  /** An accepted send keeps the shape: the user turn and the placeholder
      are appended to a conversation with no reply pending. */
  lemma SendKeepsConversation(ms: seq<Message>, user: Message, typing: Message)
    requires Conversation(ms, false)
    requires user.sender == User && !user.isTyping
    requires typing.sender == Ai && typing.isTyping && typing.content == ""
    ensures Conversation(ms + [user, typing], true)
  {
    var ms' := ms + [user, typing];
    forall i | 0 <= i < |ms'| - 1 ensures !ms'[i].isTyping {
      if i < |ms| - 1 { assert ms'[i] == ms[i]; }
    }
    forall i | 0 < i < |ms'| && ms'[i].sender == Ai && !ms'[i].isTyping ensures IsCannedReply(ms'[i].content) {
      assert i < |ms| && ms'[i] == ms[i];
    }
  }

  /** A reply keeps the shape: the placeholder is replaced by a canned reply
      and nothing is pending any more. */
  lemma ReplyKeepsConversation(ms: seq<Message>, reply: Message)
    requires Conversation(ms, true)
    requires reply.sender == Ai && !reply.isTyping && IsCannedReply(reply.content)
    ensures WithoutTyping(ms) == ms[..|ms| - 1]
    ensures Conversation(WithoutTyping(ms) + [reply], false)
  {
    WithoutTypingDropsLast(ms);
    var ms' := ms[..|ms| - 1] + [reply];
    assert |ms| >= 2;
    forall i | 0 <= i < |ms'| - 1 ensures ms'[i] == ms[i] {
    }
  }

  class ChatSession {
    var messages: seq<Message>
    var input: string
    var isLoading: bool

    ghost predicate Valid()
      reads this
    {
      Conversation(messages, isLoading)
    }

    /** The initial state: the greeting alone, an empty input, not loading. */
    constructor ()
      ensures Valid()
      ensures messages == [GreetingMessage()] && input == "" && !isLoading
    {
      messages := [GreetingMessage()];
      input := "";
      isLoading := false;
    }

    /** The suggested questions are offered, the first three of them, only
        while the greeting is the only message. */
    function OfferedQuestions(): (qs: seq<string>)
      reads this
      ensures qs != [] <==> |messages| <= 1
      ensures qs != [] ==> |qs| == 3 && qs == SuggestedQuestions[..3]
      ensures Valid() ==> (qs != [] <==> messages == [GreetingMessage()])
    {
      if |messages| <= 1 then SuggestedQuestions[..3] else []
    }

    /** `handleSendMessage` up to the reply delay, with the synchronous start
        of `simulateAIResponse`: a blank input or a pending reply changes
        nothing; otherwise the user turn (untrimmed) and the placeholder are
        appended, the input is cleared and the reply is pending. */
    method Send(userId: string, typingId: string) returns (accepted: bool)
      requires Valid()
      modifies this
      ensures Valid()
      ensures accepted == CanSend(old(input), old(isLoading))
      ensures !accepted ==> messages == old(messages) && input == old(input) && isLoading == old(isLoading)
      ensures accepted ==>
        messages == old(messages) + [Message(userId, old(input), User, false), Message(typingId, "", Ai, true)] &&
        input == "" && isLoading
      ensures accepted ==> OfferedQuestions() == []
    {
      if Trim(input) == [] || isLoading {
        return false;
      }
      SendKeepsConversation(messages, Message(userId, input, User, false), Message(typingId, "", Ai, true));
      var userMessage := Message(userId, input, User, false);
      messages := messages + [userMessage];
      input := "";
      isLoading := true;
      var typingMessage := Message(typingId, "", Ai, true);
      SnocSnoc(old(messages), userMessage, typingMessage);
      messages := messages + [typingMessage];
      accepted := true;
    }

    /** The rest of `simulateAIResponse` once the delay is over: the
        placeholder is filtered out, canned reply `k` is appended and the
        reply is no longer pending. */
    method Reply(replyId: string, k: nat)
      requires Valid() && isLoading
      requires k < ReplyCount
      modifies this
      ensures Valid()
      ensures messages == old(messages)[..|old(messages)| - 1] + [Message(replyId, Response(k), Ai, false)]
      ensures input == old(input) && !isLoading
    {
      ReplyKeepsConversation(messages, Message(replyId, Response(k), Ai, false));
      messages := WithoutTyping(messages);
      var aiResponse := Message(replyId, Response(k), Ai, false);
      messages := messages + [aiResponse];
      isLoading := false;
    }

    /** A whole send, the delay taken as one step: an accepted send grows the
        conversation by exactly the user turn and one canned reply, with no
        placeholder left and nothing pending. */
    method HandleSendMessage(userId: string, typingId: string, replyId: string, k: nat) returns (accepted: bool)
      requires Valid()
      requires k < ReplyCount
      modifies this
      ensures Valid()
      ensures accepted == CanSend(old(input), old(isLoading))
      ensures !accepted ==> messages == old(messages) && input == old(input) && isLoading == old(isLoading)
      ensures accepted ==>
        messages == old(messages) + [Message(userId, old(input), User, false), Message(replyId, Response(k), Ai, false)] &&
        input == "" && !isLoading
    {
      ghost var before := messages;
      ghost var user := Message(userId, input, User, false);
      accepted := Send(userId, typingId);
      if accepted {
        assert messages[..|messages| - 1] == before + [user];
        Reply(replyId, k);
      }
    }

    /** `handleKeyPress`: Enter without Shift starts a send; any other key
        changes nothing. */
    method KeyPress(key: string, shift: bool, userId: string, typingId: string) returns (sent: bool)
      requires Valid()
      modifies this
      ensures Valid()
      ensures sent <==> key == "Enter" && !shift && CanSend(old(input), old(isLoading))
      ensures !sent ==> messages == old(messages) && input == old(input) && isLoading == old(isLoading)
      ensures sent ==>
        messages == old(messages) + [Message(userId, old(input), User, false), Message(typingId, "", Ai, true)] &&
        input == "" && isLoading
    {
      sent := false;
      if key == "Enter" && !shift {
        sent := Send(userId, typingId);
      }
    }

    /** `handleSuggestedQuestion`: the question becomes the input. */
    method ChooseSuggestion(question: string)
      requires Valid()
      modifies this
      ensures Valid()
      ensures input == question && messages == old(messages) && isLoading == old(isLoading)
    {
      input := question;
    }

    /** Typing into the input, which is disabled while a reply is pending. */
    method ChangeInput(value: string)
      requires Valid()
      modifies this
      ensures Valid()
      ensures input == (if old(isLoading) then old(input) else value)
      ensures messages == old(messages) && isLoading == old(isLoading)
    {
      if !isLoading {
        input := value;
      }
    }
  }
}
