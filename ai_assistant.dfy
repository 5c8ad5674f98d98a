/**
 * AIAssistant.tsx: the scripted chat. The conversation opens with a greeting; a sent
 * message (typed, or one of the conversation starters) is appended and answered with the
 * starter's canned response or a fixed fallback, typed out one character at a time and
 * then appended as an AI message.
 */
module AIAssistant {
  import opened Wrappers

  datatype Sender = User | AI

  /** A chat message; its id is the Date.now() of its creation (1 for the greeting). */
  datatype Message = Message(id: int, sender: Sender, content: string)

  datatype ConversationStarter = ConversationStarter(question: string, response: string)

  const Greeting: string :=
    "Hello! I'm your AI assistant. I can help you learn about AI, development projects, and technical expertise."

  const Fallback: string :=
    "I've ran out of free OpenRouter credits for now... :( But feel free to reach out directly via email or LinkedIn to discuss AI work, development projects, and technical expertise!"

  const Starters: seq<ConversationStarter> := [
    ConversationStarter(
      "What technologies do you work with daily?",
      "I work primarily with React and Next.js for frontend development, Node.js and Python for backend services, and TypeScript for type safety. I specialize in building AI applications, RAG systems, and full-stack solutions using modern frameworks. I also work extensively with Docker, PostgreSQL, and cloud platforms like AWS and Google Cloud."),
    ConversationStarter(
      "Can you describe a challenging project you've worked on?",
      "I've developed complex AI-powered applications with sophisticated user interfaces and backend systems. The challenges often involve creating intuitive interfaces while handling large datasets, implementing real-time features, and ensuring optimal performance. I focus on clean architecture, scalable solutions, and user experience optimization."),
    ConversationStarter(
      "How do you ensure code quality and security?",
      "I implement comprehensive testing strategies with Jest and Cypress, use TypeScript for type safety, and follow security-first development practices. I focus on code reviews, automated testing, proper authentication flows, and secure API integrations. Clean code principles and documentation are also key priorities."),
    ConversationStarter(
      "What's your experience with team collaboration?",
      "I have extensive experience working in agile environments, leading technical discussions, and mentoring developers. I believe in clear communication, knowledge sharing through documentation, and collaborative problem-solving. I've successfully coordinated between frontend, backend, and AI teams on complex projects.")
  ]

  /** Array.prototype.find on the starters: the first one whose question equals `q`. */
  function FindStarter(starters: seq<ConversationStarter>, q: string): (r: Option<ConversationStarter>)
    ensures r.Some? ==>
      exists i :: (&& 0 <= i < |starters| && starters[i] == r.value && r.value.question == q
                   && forall j :: 0 <= j < i ==> starters[j].question != q)
    ensures r.None? <==> forall i :: 0 <= i < |starters| ==> starters[i].question != q
  {
    if starters == [] then None
    else if starters[0].question == q then Some(starters[0])
    else
      var rest := FindStarter(starters[1..], q);
      assert rest.Some? ==>
        exists i :: (&& 1 <= i < |starters| && starters[i] == rest.value && rest.value.question == q
                     && forall j :: 0 <= j < i ==> starters[j].question != q) by {
        if rest.Some? {
          var i :| 0 <= i < |starters[1..]| && starters[1..][i] == rest.value && rest.value.question == q
                   && forall j :: 0 <= j < i ==> starters[1..][j].question != q;
          assert starters[i + 1] == rest.value;
          assert forall j :: 0 <= j < i + 1 ==> starters[j].question != q by {
            forall j | 0 <= j < i + 1
              ensures starters[j].question != q
            {
              if j > 0 {
                assert starters[j] == starters[1..][j - 1];
              }
            }
          }
        }
      }
      assert rest.None? ==> forall i :: 1 <= i < |starters| ==> starters[i].question != q by {
        if rest.None? {
          forall i | 1 <= i < |starters|
            ensures starters[i].question != q
          {
            assert starters[i] == starters[1..][i - 1];
          }
        }
      }
      rest
  }

  /** The reply simulateAIResponse types out: the response of the first starter whose
      question is exactly the message, the fallback when there is none. */
  function ResponseFor(starters: seq<ConversationStarter>, userMessage: string): (response: string)
    ensures !IsStarterQuestion(starters, userMessage) ==> response == Fallback
    ensures IsStarterQuestion(starters, userMessage) ==>
      exists i :: 0 <= i < |starters| && starters[i].question == userMessage && response == starters[i].response
  {
    match FindStarter(starters, userMessage)
    case Some(starter) => starter.response
    case None => Fallback
  }

  /** Whether some conversation starter asks exactly `q`. */
  predicate IsStarterQuestion(starters: seq<ConversationStarter>, q: string) {
    exists i :: 0 <= i < |starters| && starters[i].question == q
  }

  /** No two starters ask the same question. */
  predicate QuestionsDistinct(starters: seq<ConversationStarter>) {
    forall i, j :: 0 <= i < j < |starters| ==> starters[i].question != starters[j].question
  }

  /** The four starters of the chat ask four different questions. */
  lemma StartersDistinct()
    ensures QuestionsDistinct(Starters)
  {
    assert |Starters[0].question| == 41 && |Starters[1].question| == 56;
    assert |Starters[2].question| == 44 && |Starters[3].question| == 47;
  }

  /** With distinct questions, each starter question is answered with that starter's own
      response. */
  lemma StarterAnswered(starters: seq<ConversationStarter>, k: nat)
    requires QuestionsDistinct(starters) && k < |starters|
    ensures ResponseFor(starters, starters[k].question) == starters[k].response
  {
    var q := starters[k].question;
    var r := FindStarter(starters, q);
    var i :| 0 <= i < |starters| && starters[i] == r.value && r.value.question == q
             && forall j :: 0 <= j < i ==> starters[j].question != q;
    assert i == k;
  }

  /** The characters String.prototype.trim removes: white space and line terminators. */
  predicate IsJsWhitespace(c: char) {
    || c == '\t' || c == '\n' || c == '\U{000B}' || c == '\U{000C}' || c == '\r' || c == ' '
    || c == '\U{00A0}' || c == '\U{1680}' || ('\U{2000}' <= c <= '\U{200A}')
    || c == '\U{2028}' || c == '\U{2029}' || c == '\U{202F}' || c == '\U{205F}'
    || c == '\U{3000}' || c == '\U{FEFF}'
  }

  predicate IsBlank(s: string) {
    forall i :: 0 <= i < |s| ==> IsJsWhitespace(s[i])
  }

  /** The leading white space removed: what is dropped is blank, what is kept does not
      start with white space. */
  function TrimStart(s: string): (r: string)
    ensures |r| <= |s| && r == s[|s| - |r|..]
    ensures IsBlank(s[..|s| - |r|])
    ensures r != [] ==> !IsJsWhitespace(r[0])
  {
    if s != [] && IsJsWhitespace(s[0]) then
      var r := TrimStart(s[1..]);
      assert s[..|s| - |r|] == [s[0]] + s[1..][..|s[1..]| - |r|];
      r
    else s
  }

  /** The trailing white space removed: what is dropped is blank, what is kept does not
      end with white space. */
  function TrimEnd(s: string): (r: string)
    ensures |r| <= |s| && r == s[..|r|]
    ensures IsBlank(s[|r|..])
    ensures r != [] ==> !IsJsWhitespace(r[|r| - 1])
  {
    if s != [] && IsJsWhitespace(s[|s| - 1]) then
      var r := TrimEnd(s[..|s| - 1]);
      assert s[|r|..] == s[..|s| - 1][|r|..] + [s[|s| - 1]];
      r
    else s
  }

  /** r is s with a blank prefix and a blank suffix cut off. */
  predicate TrimmedFrom(r: string, s: string) {
    exists k :: 0 <= k <= |s| - |r| && r == s[k..][..|r|] && IsBlank(s[..k]) && IsBlank(s[k..][|r|..])
  }

  /** String.prototype.trim: white space cut off at both ends and nowhere else; what is
      kept neither starts nor ends with white space. */
  function Trim(s: string): (r: string)
    ensures |r| <= |s|
    ensures TrimmedFrom(r, s)
    ensures r != [] ==> !IsJsWhitespace(r[0]) && !IsJsWhitespace(r[|r| - 1])
  {
    var t := TrimEnd(s);
    var r := TrimStart(t);
    assert TrimmedFrom(r, s) by {
      var k := |t| - |r|;
      assert s[..k] == t[..k];
      assert s[k..][|r|..] == s[|t|..];
      assert r == s[k..][..|r|];
    }
    r
  }

  lemma {:induction false} TrimStartEmpty(s: string)
    ensures TrimStart(s) == [] <==> IsBlank(s)
    decreases |s|
  {
    if s != [] && IsJsWhitespace(s[0]) {
      TrimStartEmpty(s[1..]);
      assert IsBlank(s) <==> IsBlank(s[1..]) by {
        if IsBlank(s[1..]) {
          forall i | 0 <= i < |s|
            ensures IsJsWhitespace(s[i])
          {
            if i > 0 {
              assert s[i] == s[1..][i - 1];
            }
          }
        }
      }
    }
  }

  lemma {:induction false} TrimEndEmpty(s: string)
    ensures TrimEnd(s) == [] <==> IsBlank(s)
    decreases |s|
  {
    if s != [] && IsJsWhitespace(s[|s| - 1]) {
      TrimEndEmpty(s[..|s| - 1]);
      assert IsBlank(s) <==> IsBlank(s[..|s| - 1]) by {
        if IsBlank(s[..|s| - 1]) {
          forall i | 0 <= i < |s|
            ensures IsJsWhitespace(s[i])
          {
            if i < |s| - 1 {
              assert s[i] == s[..|s| - 1][i];
            }
          }
        }
      }
    }
  }

  /** `!s.trim()` holds exactly for strings made only of white space (the empty one too). */
  lemma TrimEmptyIffBlank(s: string)
    ensures Trim(s) == [] <==> IsBlank(s)
  {
    TrimEndEmpty(s);
    TrimStartEmpty(TrimEnd(s));
    var t := TrimEnd(s);
    if !IsBlank(s) {
      assert !IsBlank(t) by {
        assert !IsJsWhitespace(t[|t| - 1]);
      }
    }
  }

  /**
   * The typing loop of simulateAIResponse: the successive values of typingText, each one
   * character longer than the one before.
   */
  method TypeOut(response: string) returns (shown: seq<string>)
    ensures |shown| == |response|
    ensures forall i :: 0 <= i < |shown| ==> shown[i] == response[..i + 1]
  {
    var currentText := "";
    shown := [];
    var i := 0;
    while i < |response|
      invariant 0 <= i <= |response|
      invariant currentText == response[..i]
      invariant |shown| == i
      invariant forall j :: 0 <= j < i ==> shown[j] == response[..j + 1]
    {
      currentText := currentText + [response[i]];
      assert currentText == response[..i + 1];
      shown := shown + [currentText];
      i := i + 1;
    }
  }

  class Assistant {
    var isOpen: bool
    var messages: seq<Message>
    var inputValue: string
    var isThinking: bool
    var typingText: string
    /** The conversation starters the component offers and answers from. */
    const starters: seq<ConversationStarter>

    /** The greeting always heads the conversation. */
    ghost predicate Valid()
      reads this
    {
      |messages| >= 1 && messages[0] == Message(1, AI, Greeting)
    }

    /** The conversation starters are offered only before anything has been asked. */
    predicate StartersShown()
      reads this
    {
      |messages| == 1
    }

    constructor ()
      ensures Valid() && messages == [Message(1, AI, Greeting)] && StartersShown()
      ensures !isOpen && inputValue == "" && !isThinking && typingText == "" && starters == Starters
    {
      isOpen, inputValue, isThinking, typingText := false, "", false, "";
      messages := [Message(1, AI, Greeting)];
      starters := Starters;
    }

    /**
     * simulateAIResponse, run to completion: pick the response, think, type it out one
     * character at a time (`shown` lists every typingText set, in order), then append it
     * as an AI message with id `now` and clear typingText.
     */
    method SimulateAIResponse(userMessage: string, now: int) returns (shown: seq<string>)
      requires Valid()
      modifies this`isThinking, this`typingText, this`messages
      ensures Valid()
      ensures messages == old(messages) + [Message(now, AI, ResponseFor(starters, userMessage))]
      ensures |shown| == |ResponseFor(starters, userMessage)|
      ensures forall i :: 0 <= i < |shown| ==> shown[i] == ResponseFor(starters, userMessage)[..i + 1]
      ensures !isThinking && typingText == ""
    {
      isThinking := true;
      var response := ResponseFor(starters, userMessage);
      isThinking := false;
      shown := TypeOut(response);
      messages := messages + [Message(now, AI, response)];
      typingText := "";
    }

    /**
     * handleSendMessage: a blank input does nothing; otherwise the input, untrimmed, is
     * appended as a user message with id `now`, the input is cleared, and the response
     * follows with id `later`.
     */
    method HandleSendMessage(now: int, later: int) returns (sent: bool, shown: seq<string>)
      requires Valid()
      modifies this`isThinking, this`typingText, this`messages, this`inputValue
      ensures Valid()
      ensures sent <==> !IsBlank(old(inputValue))
      ensures !sent ==> messages == old(messages) && inputValue == old(inputValue) && shown == []
      ensures sent ==>
        && messages == old(messages) + [Message(now, User, old(inputValue)),
                                        Message(later, AI, ResponseFor(starters, old(inputValue)))]
        && inputValue == ""
        && |shown| == |ResponseFor(starters, old(inputValue))|
    {
      TrimEmptyIffBlank(inputValue);
      if Trim(inputValue) == [] {
        return false, [];
      }
      var userMessage := Message(now, User, inputValue);
      var text := inputValue;
      ghost var before := messages;
      messages := messages + [userMessage];
      inputValue := "";
      shown := SimulateAIResponse(text, later);
      ghost var aiMessage := Message(later, AI, ResponseFor(starters, text));
      assert messages == (before + [userMessage]) + [aiMessage];
      assert messages == before + [userMessage, aiMessage];
      sent := true;
    }

    /** handleKeyPress: Enter without Shift sends; every other key does nothing here. */
    method HandleKeyPress(key: string, shiftKey: bool, now: int, later: int) returns (sent: bool)
      requires Valid()
      modifies this`isThinking, this`typingText, this`messages, this`inputValue
      ensures Valid()
      ensures sent ==> key == "Enter" && !shiftKey
      ensures !(key == "Enter" && !shiftKey) ==>
        messages == old(messages) && inputValue == old(inputValue) && typingText == old(typingText)
      ensures key == "Enter" && !shiftKey ==> (sent <==> !IsBlank(old(inputValue)))
      ensures !sent ==> messages == old(messages) && inputValue == old(inputValue)
      ensures sent ==>
        && messages == old(messages) + [Message(now, User, old(inputValue)),
                                        Message(later, AI, ResponseFor(starters, old(inputValue)))]
        && inputValue == ""
    {
      sent := false;
      if key == "Enter" && !shiftKey {
        var shown;
        sent, shown := HandleSendMessage(now, later);
      }
    }

    /** handleStarterClick on starter k (the buttons exist only while StartersShown()). */
    method HandleStarterClick(k: nat, now: int, later: int) returns (shown: seq<string>)
      requires Valid() && StartersShown() && k < |starters| && QuestionsDistinct(starters)
      modifies this`isThinking, this`typingText, this`messages
      ensures Valid() && !StartersShown()
      ensures messages == old(messages) + [Message(now, User, starters[k].question),
                                           Message(later, AI, starters[k].response)]
    {
      messages := messages + [Message(now, User, starters[k].question)];
      StarterAnswered(starters, k);
      shown := SimulateAIResponse(starters[k].question, later);
    }
  }
}
