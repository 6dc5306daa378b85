/**
 * The conversation state of the chat view (components/chat-interface.tsx):
 * the message list, the input field and the busy flag, the history derived
 * from the list, and the transitions of submitting a question and of its
 * request resolving. The fetch to `/api/chat` is split at its `await`:
 * `ProcessQuestion` returns the request it sends, and `Complete` takes what
 * came back.
 */
module ChatView {

  import opened Wrappers
  import opened ChatModes
  import opened JsText
  import AiService
  import ChatRoute

  datatype Kind = User | Ai | Loading

  /** A chat message; `followUps` is `None` where the source leaves the field undefined. */
  datatype ChatMessage = ChatMessage(kind: Kind, content: string, followUps: Option<seq<string>>)

  /** The JSON body the view posts. */
  datatype ChatRequest = ChatRequest(question: string, mode: Mode, conversationHistory: seq<AiService.Exchange>)

  /**
   * What the `await fetch(...)` and `await response.json()` came to: the
   * answer of a 2xx response, a response that was not ok, or a throw.
   */
  datatype ResponseOutcome =
    | Answered(answer: string, followUps: seq<string>)
    | HttpFailure(status: nat)
    | Thrown(message: string)

  function UserMessage(question: string): ChatMessage
  {
    ChatMessage(User, question, None)
  }

  const LoadingMessage := ChatMessage(Loading, "Thinking...", None)

  /** How many messages of `s` are of kind `k`. */
  function CountKind(s: seq<ChatMessage>, k: Kind): nat
  {
    if s == [] then 0 else (if s[0].kind == k then 1 else 0) + CountKind(s[1..], k)
  }

  lemma {:induction false} CountKindAppend(a: seq<ChatMessage>, b: seq<ChatMessage>, k: Kind)
    ensures CountKind(a + b, k) == CountKind(a, k) + CountKind(b, k)
  {
    if a == [] {
      assert a + b == b;
    } else {
      assert (a + b)[1..] == a[1..] + b;
      CountKindAppend(a[1..], b, k);
    }
  }

  lemma CountKindSingle(m: ChatMessage, k: Kind)
    ensures CountKind([m], k) == if m.kind == k then 1 else 0
  {
    assert [m][1..] == [];
  }

  /**
   * `messages.filter(msg => msg.type !== "loading")`; with three kinds this
   * is also the `user || ai` filter of the history derivation.
   */
  function WithoutLoading(s: seq<ChatMessage>): (r: seq<ChatMessage>)
    ensures |r| <= |s|
    ensures forall i :: 0 <= i < |r| ==> r[i].kind != Loading
  {
    if s == [] then []
    else (if s[0].kind == Loading then [] else [s[0]]) + WithoutLoading(s[1..])
  }

  /** Filtering keeps exactly the messages that are not placeholders. */
  lemma {:induction false} WithoutLoadingMembers(s: seq<ChatMessage>, m: ChatMessage)
    ensures m in WithoutLoading(s) <==> m in s && m.kind != Loading
  {
    if s != [] {
      WithoutLoadingMembers(s[1..], m);
      assert s == [s[0]] + s[1..];
    }
  }

  /** Filtering distributes over concatenation, so the kept messages stay in their order. */
  lemma {:induction false} WithoutLoadingAppend(a: seq<ChatMessage>, b: seq<ChatMessage>)
    ensures WithoutLoading(a + b) == WithoutLoading(a) + WithoutLoading(b)
  {
    if a == [] {
      assert a + b == b;
    } else {
      assert (a + b)[1..] == a[1..] + b;
      WithoutLoadingAppend(a[1..], b);
    }
  }

  /** A list without placeholders is left as it is. */
  lemma {:induction false} WithoutLoadingNoop(s: seq<ChatMessage>)
    requires CountKind(s, Loading) == 0
    ensures WithoutLoading(s) == s
  {
    if s != [] {
      WithoutLoadingNoop(s[1..]);
    }
  }

  /** Filtering keeps every user message. */
  lemma {:induction false} WithoutLoadingUsers(s: seq<ChatMessage>)
    ensures CountKind(WithoutLoading(s), User) == CountKind(s, User)
  {
    if s != [] {
      WithoutLoadingUsers(s[1..]);
      CountKindAppend(if s[0].kind == Loading then [] else [s[0]], WithoutLoading(s[1..]), User);
    }
  }

  /** When the only placeholder is the last message, filtering just drops it. */
  lemma WithoutLoadingDropsPlaceholder(s: seq<ChatMessage>)
    requires |s| >= 1 && s[|s| - 1].kind == Loading && CountKind(s, Loading) == 1
    ensures WithoutLoading(s) == s[..|s| - 1]
  {
    var init := s[..|s| - 1];
    assert s == init + [s[|s| - 1]];
    CountKindAppend(init, [s[|s| - 1]], Loading);
    WithoutLoadingAppend(init, [s[|s| - 1]]);
    WithoutLoadingNoop(init);
  }

  // ---------------------------------------------------------------------------
  // The conversation history sent with a question
  // ---------------------------------------------------------------------------

  /** Position `k` of `arr` holds a user message followed at once by an answer. */
  predicate IsPairAt(arr: seq<ChatMessage>, k: int)
  {
    0 <= k < |arr| - 1 && arr[k].kind == User && arr[k + 1].kind == Ai
  }

  function PairAt(arr: seq<ChatMessage>, k: int): AiService.Exchange
    requires IsPairAt(arr, k)
  {
    AiService.Exchange(arr[k].content, arr[k + 1].content)
  }

  /** The exchanges of `arr`, one per user message directly followed by an answer, in order. */
  function Pairs(arr: seq<ChatMessage>): seq<AiService.Exchange>
    decreases |arr|
  {
    if |arr| < 2 then []
    else (if IsPairAt(arr, 0) then [PairAt(arr, 0)] else []) + Pairs(arr[1..])
  }

  /** The `conversationHistory` derived from a message list. */
  function History(messages: seq<ChatMessage>): seq<AiService.Exchange>
  {
    Pairs(WithoutLoading(messages))
  }

  /** The scan from position `i` takes that position's exchange, if any, then goes on from `i + 1`. */
  lemma PairsStep(arr: seq<ChatMessage>, i: nat)
    requires i < |arr|
    ensures Pairs(arr[i..]) == (if IsPairAt(arr, i) then [PairAt(arr, i)] else []) + Pairs(arr[i + 1..])
  {
    var rest := arr[i..];
    assert rest[1..] == arr[i + 1..];
    if |rest| >= 2 {
      assert IsPairAt(rest, 0) == IsPairAt(arr, i);
    }
  }

  /**
   * The `filter` and `reduce` of `processQuestion`: walk the filtered list,
   * pushing an exchange for every user message whose successor is an answer.
   */
  method ConversationHistory(messages: seq<ChatMessage>) returns (acc: seq<AiService.Exchange>)
    ensures acc == History(messages)
  {
    var arr := WithoutLoading(messages);
    acc := [];
    var index := 0;
    while index < |arr|
      invariant 0 <= index <= |arr|
      invariant acc + Pairs(arr[index..]) == Pairs(arr)
    {
      PairsStep(arr, index);
      if arr[index].kind == User && index + 1 < |arr| && arr[index + 1].kind == Ai {
        acc := acc + [AiService.Exchange(arr[index].content, arr[index + 1].content)];
      }
      index := index + 1;
    }
  }

  /** There are no more exchanges than user messages. */
  lemma {:induction false} PairsBound(arr: seq<ChatMessage>)
    ensures |Pairs(arr)| <= CountKind(arr, User)
  {
    if |arr| >= 2 {
      PairsBound(arr[1..]);
    } else if |arr| == 1 {
      assert arr[1..] == [];
    }
  }

  lemma HistoryBound(messages: seq<ChatMessage>)
    ensures |History(messages)| <= CountKind(messages, User)
  {
    PairsBound(WithoutLoading(messages));
    WithoutLoadingUsers(messages);
  }

  /** An exchange is in the history exactly when some user message is directly answered with it. */
  lemma {:induction false} PairsMembers(arr: seq<ChatMessage>, e: AiService.Exchange)
    ensures e in Pairs(arr) <==> exists k :: IsPairAt(arr, k) && PairAt(arr, k) == e
  {
    if |arr| >= 2 {
      PairsMembers(arr[1..], e);
      if e in Pairs(arr[1..]) {
        var k :| IsPairAt(arr[1..], k) && PairAt(arr[1..], k) == e;
        assert IsPairAt(arr, k + 1) && PairAt(arr, k + 1) == e;
      }
      if exists k :: IsPairAt(arr, k) && PairAt(arr, k) == e {
        var k :| IsPairAt(arr, k) && PairAt(arr, k) == e;
        if k > 0 {
          assert IsPairAt(arr[1..], k - 1) && PairAt(arr[1..], k - 1) == e;
        }
      }
    }
  }

  /** Appending a question and its answer adds exactly that exchange at the end. */
  lemma {:induction false} PairsAppendExchange(arr: seq<ChatMessage>, user: ChatMessage, reply: ChatMessage)
    requires user.kind == User && reply.kind == Ai
    ensures Pairs(arr + [user, reply]) == Pairs(arr) + [AiService.Exchange(user.content, reply.content)]
  {
    var ext := arr + [user, reply];
    if |arr| == 0 {
      assert ext[1..] == [reply];
    } else if |arr| == 1 {
      assert ext[1..] == [user, reply];
      assert [reply][1..] == [];
      assert Pairs([user, reply]) == [AiService.Exchange(user.content, reply.content)] + Pairs([reply]);
    } else {
      assert ext[1..] == arr[1..] + [user, reply];
      PairsAppendExchange(arr[1..], user, reply);
    }
  }

  // ---------------------------------------------------------------------------
  // The reply that replaces the placeholder
  // ---------------------------------------------------------------------------

  /** The message of the error caught by `processQuestion`; a non-ok response throws `HTTP <status>`. */
  function FailureMessage(outcome: ResponseOutcome): string
    requires !outcome.Answered?
  {
    match outcome
    case HttpFailure(status) => "HTTP " + NatToString(status)
    case Thrown(message) => message
  }

  /**
   * The `ai` message appended when the request resolves: the answer with its
   * follow-ups, or an error text that begins "Error: ", contains the error's
   * message and has no follow-ups.
   */
  function ReplyMessage(outcome: ResponseOutcome): (m: ChatMessage)
    ensures m.kind == Ai
    ensures outcome.Answered? ==> m.content == outcome.answer && m.followUps == Some(outcome.followUps)
    ensures !outcome.Answered? ==>
      m.followUps.None? && |m.content| >= 7 + |FailureMessage(outcome)| &&
      m.content[..7] == "Error: " && m.content[7..7 + |FailureMessage(outcome)|] == FailureMessage(outcome)
  {
    match outcome
    case Answered(answer, followUps) => ChatMessage(Ai, answer, Some(followUps))
    case _ =>
      var message := FailureMessage(outcome);
      ChatMessage(Ai, "Error: " + message + "\n\nCheck your GROQ_API_KEY in .env.local", None)
  }

  /** A response with status 500 is shown as the text `Error: HTTP 500` and the hint. */
  lemma ReplyForStatus500()
    ensures ReplyMessage(HttpFailure(500)) ==
      ChatMessage(Ai, "Error: " + "HTTP 500" + "\n\nCheck your GROQ_API_KEY in .env.local", None)
  {
    assert NatToString(5) == "5";
    assert NatToString(50) == "50";
    assert NatToString(500) == "500";
    assert FailureMessage(HttpFailure(500)) == "HTTP " + "500" == "HTTP 500";
  }

  /**
   * A completed exchange, answered or failed, extends the history by exactly
   * one exchange: the question with the reply's text.
   */
  lemma HistoryAfterExchange(messages: seq<ChatMessage>, question: string, outcome: ResponseOutcome)
    ensures History(WithoutLoading(messages + [UserMessage(question), LoadingMessage]) + [ReplyMessage(outcome)]) ==
      History(messages) + [AiService.Exchange(question, ReplyMessage(outcome).content)]
  {
    var user, reply := UserMessage(question), ReplyMessage(outcome);
    var kept := WithoutLoading(messages);
    WithoutLoadingAppend(messages, [user, LoadingMessage]);
    assert WithoutLoading([user, LoadingMessage]) == [user] by {
      assert [user, LoadingMessage][1..] == [LoadingMessage];
      assert [LoadingMessage][1..] == [];
    }
    assert WithoutLoading([reply]) == [reply] by {
      assert [reply][1..] == [];
    }
    WithoutLoadingAppend(kept + [user], [reply]);
    assert WithoutLoading(kept + [user]) == kept + [user] by {
      WithoutLoadingAppend(kept, [user]);
      assert [user][1..] == [];
      KeptHasNoLoading(kept);
      WithoutLoadingNoop(kept);
    }
    assert kept + [user] + [reply] == kept + [user, reply];
    PairsAppendExchange(kept, user, reply);
  }

  lemma {:induction false} KeptHasNoLoading(s: seq<ChatMessage>)
    requires forall i :: 0 <= i < |s| ==> s[i].kind != Loading
    ensures CountKind(s, Loading) == 0
  {
    if s != [] {
      KeptHasNoLoading(s[1..]);
    }
  }

  /**
   * A question the view sends passes the handler's validation: with the
   * credential set, the handler delegates it unchanged.
   */
  lemma SentRequestsPassValidation(request: ChatRequest, service: ChatRoute.Service)
    requires request.question != ""
    ensures ChatRoute.Post(ChatRoute.Parsed(ChatRoute.Body(Some(request.question), Some(request.mode), Some(request.conversationHistory))), true, service).delegated ==
      Some(AiService.AIRequest(request.question, request.mode, Some(request.conversationHistory)))
  {
  }

  // ---------------------------------------------------------------------------
  // The view's state
  // ---------------------------------------------------------------------------

  class ChatInterface {
    const mode: Mode
    var messages: seq<ChatMessage>
    var input: string
    var isLoading: bool

    /**
     * At most one placeholder is outstanding: there is one exactly while a
     * request is in flight, and then it is last, right after the question.
     */
    ghost predicate Valid()
      reads this
    {
      CountKind(messages, Loading) == (if isLoading then 1 else 0) &&
      (isLoading ==>
         |messages| >= 2 && messages[|messages| - 1] == LoadingMessage && messages[|messages| - 2].kind == User)
    }

    constructor (mode: Mode)
      ensures Valid()
      ensures this.mode == mode && messages == [] && input == "" && !isLoading
    {
      this.mode := mode;
      messages := [];
      input := "";
      isLoading := false;
    }

    /**
     * `processQuestion` up to its `await fetch`: ignored while busy;
     * otherwise sets the busy flag, appends the question and a placeholder,
     * and sends the question with the history of the list as it was.
     */
    method ProcessQuestion(question: string) returns (sent: Option<ChatRequest>)
      requires Valid()
      modifies this
      ensures Valid()
      ensures input == old(input)
      ensures old(isLoading) ==> sent == None && messages == old(messages) && isLoading
      ensures !old(isLoading) ==>
        isLoading && messages == old(messages) + [UserMessage(question), LoadingMessage] &&
        sent == Some(ChatRequest(question, mode, History(old(messages))))
    {
      if isLoading {
        return None;
      }
      isLoading := true;
      var before := messages;
      messages := messages + [UserMessage(question), LoadingMessage];
      CountKindAppend(before, [UserMessage(question), LoadingMessage], Loading);
      assert CountKind([UserMessage(question), LoadingMessage], Loading) == 1 by {
        assert [UserMessage(question), LoadingMessage] == [UserMessage(question)] + [LoadingMessage];
        CountKindAppend([UserMessage(question)], [LoadingMessage], Loading);
        CountKindSingle(UserMessage(question), Loading);
        CountKindSingle(LoadingMessage, Loading);
      }
      var history := ConversationHistory(before);
      sent := Some(ChatRequest(question, mode, history));
    }

    /**
     * `processQuestion` after its `await`: every placeholder is removed, the
     * reply is appended last, and the busy flag is cleared. In a valid state
     * this replaces the trailing placeholder by the reply.
     */
    method Complete(outcome: ResponseOutcome)
      requires Valid()
      modifies this
      ensures Valid()
      ensures messages == WithoutLoading(old(messages)) + [ReplyMessage(outcome)]
      ensures old(isLoading) ==> messages == old(messages)[..|old(messages)| - 1] + [ReplyMessage(outcome)]
      ensures !isLoading && input == old(input)
    {
      var before := messages;
      if isLoading {
        WithoutLoadingDropsPlaceholder(before);
      }
      var kept := WithoutLoading(messages);
      messages := kept + [ReplyMessage(outcome)];
      isLoading := false;
      KeptHasNoLoading(kept);
      CountKindAppend(kept, [ReplyMessage(outcome)], Loading);
      CountKindSingle(ReplyMessage(outcome), Loading);
    }

    /**
     * `handleSubmit`: blank input or a busy view does nothing; otherwise the
     * trimmed input is the question, and the input field is cleared.
     */
    method Submit() returns (sent: Option<ChatRequest>)
      requires Valid()
      modifies this
      ensures Valid()
      ensures (Trim(old(input)) == "" || old(isLoading)) ==>
        sent == None && messages == old(messages) && input == old(input) && isLoading == old(isLoading)
      ensures !(Trim(old(input)) == "" || old(isLoading)) ==>
        input == "" && isLoading &&
        messages == old(messages) + [UserMessage(Trim(old(input))), LoadingMessage] &&
        sent == Some(ChatRequest(Trim(old(input)), mode, History(old(messages))))
    {
      if Trim(input) == "" || isLoading {
        return None;
      }
      var question := Trim(input);
      input := "";
      sent := ProcessQuestion(question);
    }

    /** Clicking a follow-up question puts it in the input field; nothing is sent. */
    method SelectFollowUp(question: string)
      requires Valid()
      modifies this
      ensures Valid()
      ensures input == question && messages == old(messages) && isLoading == old(isLoading)
    {
      input := question;
    }

    /** Typing into the input field, which is disabled while a request is in flight. */
    method EditInput(text: string)
      requires Valid()
      modifies this
      ensures Valid()
      ensures input == (if old(isLoading) then old(input) else text)
      ensures messages == old(messages) && isLoading == old(isLoading)
    {
      if !isLoading {
        input := text;
      }
    }
  }

  /** A question submitted and answered: the history of the view grows by that exchange. */
  method AskAndAnswer(view: ChatInterface, answer: string, followUps: seq<string>) returns (sent: Option<ChatRequest>)
    requires view.Valid() && !view.isLoading && Trim(view.input) != ""
    modifies view
    ensures view.Valid() && !view.isLoading && view.input == ""
    ensures sent == Some(ChatRequest(Trim(old(view.input)), view.mode, History(old(view.messages))))
    ensures History(view.messages) ==
      History(old(view.messages)) + [AiService.Exchange(Trim(old(view.input)), answer)]
  {
    ghost var before := view.messages;
    ghost var question := Trim(view.input);
    sent := view.Submit();
    view.Complete(Answered(answer, followUps));
    HistoryAfterExchange(before, question, Answered(answer, followUps));
  }
}
